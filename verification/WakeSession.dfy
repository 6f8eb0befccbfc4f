/**
 One wake of one session: consume what is due, run the harness, queue what it asked for and
 acknowledge, or restore the consumed wakes and abandon when anything throws.
 */
module WakeSession {
  import opened Options
  import opened Sorting
  import opened WakeJournal
  import opened WakeIndex
  import opened SessionWakeQueues
  import opened WakeConservation
  import opened ActivationClaims

  // ----- restoring consumed wakes

  function RestoredDue(due: Time, retryDelay: int, now: Time): Time {
    if retryDelay > 0 && due < now + retryDelay then now + retryDelay else due
  }

  function RestoreInput(w: Wake, retryDelay: int, now: Time): WakeInput {
    AsInput(w).(dueAt := RestoredDue(w.dueAt, retryDelay, now))
  }

  function RestoreInputs(wakes: seq<Wake>, retryDelay: int, now: Time): (inputs: seq<WakeInput>)
    ensures |inputs| == |wakes|
    ensures forall i :: 0 <= i < |wakes| ==> inputs[i] == RestoreInput(wakes[i], retryDelay, now)
  {
    if wakes == [] then []
    else RestoreInputs(wakes[..|wakes| - 1], retryDelay, now) + [RestoreInput(wakes[|wakes| - 1], retryDelay, now)]
  }

  /** The first wake of each id. */
  function FirstOfEachId(wakes: seq<Wake>): (r: seq<Wake>)
    ensures DistinctWakes(r) && Ids(r) == Ids(wakes)
    ensures forall w :: w in r ==> w in wakes
  {
    if wakes == [] then []
    else
      var before, last := FirstOfEachId(wakes[..|wakes| - 1]), wakes[|wakes| - 1];
      assert Ids(wakes) == Ids(before) + {last.id} by {
        IdsAppend(wakes[..|wakes| - 1], last);
        assert wakes == wakes[..|wakes| - 1] + [last];
      }
      if last.id in Ids(before) then before
      else
        assert DistinctWakes(before + [last]) && Ids(before + [last]) == Ids(wakes) by { AddUnseen(before, last); }
        before + [last]
  }

  lemma AddUnseen(unique: seq<Wake>, w: Wake)
    requires DistinctWakes(unique) && w.id !in Ids(unique)
    ensures DistinctWakes(unique + [w]) && Ids(unique + [w]) == Ids(unique) + {w.id}
  {
    IdsAppend(unique, w);
    assert forall k :: 0 <= k < |unique| ==> unique[k] in unique;
  }

  /** The order of restoring: soonest first, and of one id the soonest. */
  function RestoreOrder(wakes: seq<Wake>): seq<Wake> {
    FirstOfEachId(StableSort(wakes, DueLe))
  }

  method DedupeWakeRestoreList(wakes: seq<Wake>) returns (unique: seq<Wake>)
    ensures unique == RestoreOrder(wakes) && SoonestOfEach(unique, wakes)
  {
    unique := FilterSeen(StableSort(wakes, DueLe));
    RestoreOrderMeans(wakes);
  }

  method FilterSeen(ordered: seq<Wake>) returns (unique: seq<Wake>)
    ensures unique == FirstOfEachId(ordered)
  {
    unique := [];
    var seen: set<WakeId> := {};
    for i := 0 to |ordered|
      invariant unique == FirstOfEachId(ordered[..i]) && seen == Ids(unique)
    {
      assert ordered[..i + 1][..i] == ordered[..i];
      if ordered[i].id !in seen {
        IdsAppend(unique, ordered[i]);
        unique := unique + [ordered[i]];
        seen := seen + {ordered[i].id};
      }
    }
    assert ordered[..|ordered|] == ordered;
  }

  ghost predicate OneOfEachSoonestFirst(order: seq<Wake>) {
    forall i, j :: 0 <= i < j < |order| ==> order[i].id != order[j].id && order[i].dueAt <= order[j].dueAt
  }

  /** A wake of that id, due no later, is in the list. */
  ghost predicate NoLaterIn(order: seq<Wake>, w: Wake) {
    exists v :: v in order && v.id == w.id && v.dueAt <= w.dueAt
  }

  /** One wake of each id, the soonest of those given, and the soonest first. */
  ghost predicate SoonestOfEach(order: seq<Wake>, wakes: seq<Wake>) {
    && OneOfEachSoonestFirst(order)
    && (forall v :: v in order ==> v in wakes)
    && (forall w :: w in wakes ==> NoLaterIn(order, w))
  }

  lemma FirstIsOne(wakes: seq<Wake>)
    requires Sorted(wakes, DueLe)
    ensures OneOfEachSoonestFirst(FirstOfEachId(wakes))
  {
    if wakes != [] {
      var front, last := wakes[..|wakes| - 1], wakes[|wakes| - 1];
      var first := FirstOfEachId(front);
      FirstIsOne(front);
      assert forall i :: 0 <= i < |first| ==> first[i] in front && first[i].dueAt <= last.dueAt;
      assert forall i :: 0 <= i < |first| && last.id !in Ids(first) ==> first[i].id != last.id;
    }
  }

  lemma {:induction false} FirstIsNoLater(wakes: seq<Wake>, w: Wake)
    requires Sorted(wakes, DueLe) && w in wakes
    ensures NoLaterIn(FirstOfEachId(wakes), w)
  {
    var front, last := wakes[..|wakes| - 1], wakes[|wakes| - 1];
    var first := FirstOfEachId(front);
    if w in front {
      FirstIsNoLater(front, w);
      var v :| v in first && v.id == w.id && v.dueAt <= w.dueAt;
      assert v in first + [last];
    } else if last.id in Ids(first) {
      var v :| v in first && v.id == last.id;
      assert v in front;
    } else {
      assert (first + [last])[|first|] == w;
    }
  }

  lemma RestoreOrderMeans(wakes: seq<Wake>)
    ensures SoonestOfEach(RestoreOrder(wakes), wakes)
  {
    var ordered := StableSort(wakes, DueLe);
    SortPermutes(wakes, DueLe);
    SortSorts(wakes, DueLe);
    FirstIsOne(ordered);
    forall w | w in wakes ensures NoLaterIn(FirstOfEachId(ordered), w) {
      FirstIsNoLater(ordered, w);
    }
  }

  lemma {:induction false} FirstOfDistinct(wakes: seq<Wake>)
    requires DistinctWakes(wakes)
    ensures FirstOfEachId(wakes) == wakes
  {
    if wakes != [] {
      var front, last := wakes[..|wakes| - 1], wakes[|wakes| - 1];
      FirstOfDistinct(front);
      assert wakes == front + [last];
      assert forall v :: v in front ==> v.id != last.id;
    }
  }

  /** Of distinct wakes every one is restored, once. */
  lemma RestoreOrderOfDistinct(wakes: seq<Wake>)
    requires DistinctWakes(wakes)
    ensures multiset(RestoreOrder(wakes)) == multiset(wakes) && |RestoreOrder(wakes)| == |wakes|
  {
    SortPermutes(wakes, DueLe);
    PermutationDistinct(wakes, StableSort(wakes, DueLe), IdOf);
    FirstOfDistinct(StableSort(wakes, DueLe));
  }

  /** Nothing pending in `a` stopped being pending in `b`. */
  ghost predicate KeepsPending(a: QueueState, b: QueueState) {
    forall t :: PendingIn(a, t) <= PendingIn(b, t)
  }

  lemma EnqueueAllKeepsPending(st: QueueState, inputs: seq<WakeInput>, now: Time)
    requires FreshIds(st)
    ensures KeepsPending(st, EnqueueAllInto(st, inputs, now))
  {
    forall t ensures PendingIn(st, t) <= PendingIn(EnqueueAllInto(st, inputs, now), t) {
      OnlyInputsAdded(st, inputs, now, t);
    }
  }

  lemma ValidIsFresh(q: SessionWakeQueue)
    requires q.Valid()
    ensures FreshIds(q.State())
  {
    forall t, w | w in EnqueuedWakes(JournalOf(q.journals, t)) ensures w.id < q.nextId {
      assert JournalSound(JournalOf(q.journals, t), t, q.minted, q.retired);
    }
  }

  /** The wake carries what was asked for, or holds the key asked for. */
  predicate Carries(v: Wake, input: WakeInput) {
    || (&& v.sessionId == input.sessionId && v.dueAt == input.dueAt && v.reason == input.reason && v.note == input.note
        && v.dedupeKey == input.dedupeKey && v.priority == input.priority)
    || (input.dedupeKey.Some? && input.dedupeKey.value != "" && v.dedupeKey == input.dedupeKey)
  }

  /** Each queued wake answers its input and is pending for the session its input names. */
  ghost predicate AllQueued(st: QueueState, inputs: seq<WakeInput>, queued: seq<Wake>) {
    && |queued| <= |inputs|
    && forall i :: 0 <= i < |queued| ==> queued[i] in PendingIn(st, inputs[i].sessionId) && Carries(queued[i], inputs[i])
  }

  lemma AllQueuedNext(a: QueueState, b: QueueState, inputs: seq<WakeInput>, queued: seq<Wake>, wake: Wake)
    requires AllQueued(a, inputs, queued) && KeepsPending(a, b)
    requires |queued| < |inputs| && wake in PendingIn(b, inputs[|queued|].sessionId) && Carries(wake, inputs[|queued|])
    ensures AllQueued(b, inputs, queued + [wake])
  {
    forall k | 0 <= k < |queued| ensures queued[k] in PendingIn(b, inputs[k].sessionId) {
      assert queued[k] in PendingIn(a, inputs[k].sessionId);
    }
  }

  /** The loop of enqueues so far: no fault yet, and every wake returned is pending. */
  ghost predicate QueuedSoFar(
      start: QueueState, st: QueueState, inputs: seq<WakeInput>, faults: Faults, now: Time, n: nat, queued: seq<Wake>) {
    && n <= |inputs| && st == EnqueueAllInto(start, inputs[..n], now)
    && (forall k :: 0 <= k < n ==> !Fault(start, inputs, faults, now, k))
    && AllQueued(st, inputs, queued) && |queued| == n
  }

  /** Still going, or stopped at a fault. */
  ghost predicate Queueing(
      start: QueueState, st: QueueState, inputs: seq<WakeInput>, faults: Faults, now: Time, n: nat, queued: seq<Wake>, stop: Stop) {
    if stop.Finished? then QueuedSoFar(start, st, inputs, faults, now, n, queued)
    else
      && Progress(start, inputs, faults, now, n, stop) && st == EnqueueAllInto(start, inputs[..n], now)
      && AllQueued(st, inputs, queued) && |queued| == if stop.ThrewAfter? then n - 1 else n
  }

  lemma StopsBefore(
      start: QueueState, st: QueueState, inputs: seq<WakeInput>, faults: Faults, now: Time, n: nat, queued: seq<Wake>)
    requires QueuedSoFar(start, st, inputs, faults, now, n, queued) && n < |inputs| && faults.beforeAppend == Some(n)
    ensures Queueing(start, st, inputs, faults, now, n, queued, ThrewBefore)
  {
  }

  /** One more enqueue ends the loop with its fault, or carries it on. */
  lemma QueuedNext(
      start: QueueState, st: QueueState, next: QueueState, inputs: seq<WakeInput>, faults: Faults, now: Time, n: nat,
      queued: seq<Wake>, wake: Wake, threw: bool)
    requires FreshIds(start) && QueuedSoFar(start, st, inputs, faults, now, n, queued) && n < |inputs|
    requires faults.beforeAppend != Some(n) && next == EnqueueInto(st, inputs[n], now) && KeepsPending(st, next)
    requires wake in PendingIn(next, inputs[n].sessionId) && Carries(wake, inputs[n])
    requires threw <==> faults.lock(n) && Appends(st, inputs[n])
    ensures Queueing(start, next, inputs, faults, now, n + 1,
              if threw then queued else queued + [wake], if threw then ThrewAfter else Finished)
  {
    EnqueueAllNext(start, inputs, n, now);
    AllQueuedStays(st, next, inputs, queued);
    AllQueuedNext(st, next, inputs, queued, wake);
  }

  method EnqueueOne(
      q: SessionWakeQueue, ghost start: QueueState, inputs: seq<WakeInput>, faults: Faults, now: Time, i: nat, sofar: seq<Wake>)
    returns (queued: seq<Wake>, stop: Stop, n: nat)
    requires q.Valid() && FreshIds(start) && QueuedSoFar(start, q.State(), inputs, faults, now, i, sofar) && i < |inputs|
    modifies q
    ensures q.Valid() && q.retired == old(q.retired) && (old(q.Exact()) && !stop.ThrewAfter? ==> q.Exact())
    ensures Queueing(start, q.State(), inputs, faults, now, n, queued, stop) && (stop.Finished? ==> n == i + 1)
  {
    ghost var st := q.State();
    if faults.beforeAppend == Some(i) {
      StopsBefore(start, st, inputs, faults, now, i, sofar);
      return sofar, ThrewBefore, i;
    }
    var wake, threw := EnqueueNext(q, inputs[i], faults.lock(i), now);
    QueuedNext(start, st, q.State(), inputs, faults, now, i, sofar, wake, threw);
    queued, stop, n := if threw then sofar else sofar + [wake], if threw then ThrewAfter else Finished, i + 1;
  }

  /**
   The loop of enqueues. It stops at the first one that throws: before its append, or after it
   when the index lock is not obtained, which leaves the wake pending and the index behind.
   */
  method EnqueueAll(q: SessionWakeQueue, inputs: seq<WakeInput>, faults: Faults, now: Time)
    returns (queued: seq<Wake>, stop: Stop, n: nat)
    requires q.Valid()
    modifies q
    ensures q.Valid() && q.retired == old(q.retired)
    ensures old(q.Exact()) && !stop.ThrewAfter? ==> q.Exact()
    ensures Progress(old(q.State()), inputs, faults, now, n, stop)
    ensures q.State() == EnqueueAllInto(old(q.State()), inputs[..n], now)
    ensures KeepsPending(old(q.State()), q.State())
    ensures AllQueued(q.State(), inputs, queued) && |queued| == if stop.ThrewAfter? then n - 1 else n
  {
    queued, stop, n := [], Finished, 0;
    ghost var start := q.State();
    ValidIsFresh(q);
    while n < |inputs| && stop.Finished?
      invariant q.Valid() && q.retired == old(q.retired) && (old(q.Exact()) && !stop.ThrewAfter? ==> q.Exact())
      invariant Queueing(start, q.State(), inputs, faults, now, n, queued, stop)
      decreases stop.Finished?, |inputs| - n
    {
      queued, stop, n := EnqueueOne(q, start, inputs, faults, now, n, queued);
    }
    EnqueueAllKeepsPending(start, inputs[..n], now);
  }

  lemma AllQueuedStays(a: QueueState, b: QueueState, inputs: seq<WakeInput>, queued: seq<Wake>)
    requires AllQueued(a, inputs, queued) && KeepsPending(a, b)
    ensures AllQueued(b, inputs, queued)
  {
    forall k | 0 <= k < |queued| ensures queued[k] in PendingIn(b, inputs[k].sessionId) {
      assert queued[k] in PendingIn(a, inputs[k].sessionId);
    }
  }

  method EnqueueNext(q: SessionWakeQueue, input: WakeInput, lockTimesOut: bool, now: Time) returns (wake: Wake, threw: bool)
    requires q.Valid()
    modifies q
    ensures q.Valid() && q.retired == old(q.retired) && (old(q.Exact()) && !threw ==> q.Exact())
    ensures q.State() == EnqueueInto(old(q.State()), input, now)
    ensures threw <==> lockTimesOut && Appends(old(q.State()), input)
    ensures wake in PendingIn(q.State(), input.sessionId) && Carries(wake, input) && KeepsPending(old(q.State()), q.State())
  {
    ghost var before := q.State();
    ValidIsFresh(q);
    wake, threw := q.Enqueue(input, now, lockTimesOut);
    forall t ensures PendingIn(before, t) <= PendingIn(q.State(), t) {
      EnqueueAdds(before, input, now, t);
    }
  }

  /** `v` is `w` asked for again: new, and all as before but put off to the end of the delay at the soonest. */
  ghost predicate Replaces(before: QueueState, w: Wake, v: Wake, retryDelay: int, at: Time) {
    && v !in PendingIn(before, w.sessionId) && v.sessionId == w.sessionId
    && v.reason == w.reason && v.note == w.note && v.dedupeKey == w.dedupeKey && v.priority == w.priority
    && v.dueAt == if retryDelay > 0 && at + retryDelay > w.dueAt then at + retryDelay else w.dueAt
  }

  /** `v` holds the non-empty key of `w`. */
  predicate StandsFor(w: Wake, v: Wake) {
    w.dedupeKey.Some? && w.dedupeKey.value != "" && v.dedupeKey == w.dedupeKey
  }

  /**
   Each of the wakes is answered by a pending one: a replacement of its own, or one that holds its
   key and was pending before or replaces an earlier of them. Different replacements have different ids.
   */
  ghost predicate EachReplaced(
      before: QueueState, after: QueueState, wakes: seq<Wake>, retryDelay: int, at: Time, got: seq<Wake>) {
    && |got| == |wakes|
    && (forall i :: 0 <= i < |wakes| ==>
          && got[i] in PendingIn(after, wakes[i].sessionId)
          && (|| Replaces(before, wakes[i], got[i], retryDelay, at)
              || (StandsFor(wakes[i], got[i]) && (got[i] in PendingIn(before, wakes[i].sessionId) || got[i] in got[..i]))))
    && (forall i, j :: 0 <= i < j < |wakes| && got[i].id == got[j].id ==> StandsFor(wakes[i], got[i]) || StandsFor(wakes[j], got[j]))
  }

  lemma ReplacementsFound(before: QueueState, wakes: seq<Wake>, n: nat, retryDelay: int, now: Time) returns (got: seq<Wake>)
    requires FreshIds(before) && n <= |wakes|
    ensures EachReplaced(before, EnqueueAllInto(before, RestoreInputs(wakes, retryDelay, now)[..n], now), wakes[..n], retryDelay, now, got)
  {
    var inputs := RestoreInputs(wakes, retryDelay, now)[..n];
    var after := EnqueueAllInto(before, inputs, now);
    AnswersFound(before, inputs, now);
    got := Answers(before, inputs, now);
    forall i | 0 <= i < n
      ensures got[i] in PendingIn(after, wakes[i].sessionId)
      ensures
        || (got[i].id == before.nextId + i && Replaces(before, wakes[i], got[i], retryDelay, now))
        || (StandsFor(wakes[i], got[i]) && (got[i] in PendingIn(before, wakes[i].sessionId) || got[i] in got[..i]))
    {
      assert AnsweredBy(before, after, inputs, now, got, i);
      assert inputs[i] == RestoreInput(wakes[i], retryDelay, now);
    }
  }

  /**
   The first `n` of the wakes, in the order of restoring, are conserved, and all of them exactly
   when the keys of the rest are held.
   */
  ghost predicate RestoredUpTo(
      before: QueueState, after: QueueState, wakes: seq<Wake>, retryDelay: int, n: nat, now: Time) {
    var inputs := ToRestore(wakes, retryDelay, now);
    && n <= |inputs| && after == EnqueueAllInto(before, inputs[..n], now) && KeepsPending(before, after)
    && Conserved(before, after, inputs[..n])
    && (Conserved(before, after, inputs) <==> RestHeld(after, inputs, n))
  }

  lemma RestoredAfter(before: QueueState, wakes: seq<Wake>, retryDelay: int, n: nat, now: Time)
    requires FreshIds(before) && n <= |RestoreOrder(wakes)|
    ensures RestoredUpTo(before, EnqueueAllInto(before, ToRestore(wakes, retryDelay, now)[..n], now), wakes, retryDelay, n, now)
  {
    var inputs := ToRestore(wakes, retryDelay, now);
    ConservedIffRestHeld(before, inputs, n, now);
    assert inputs[..n][..n] == inputs[..n];
    ConservedIffRestHeld(before, inputs[..n], n, now);
    EnqueueAllKeepsPending(before, inputs[..n], now);
  }

  /** The requests that restoring the wakes makes. */
  function ToRestore(wakes: seq<Wake>, retryDelay: int, now: Time): seq<WakeInput> {
    RestoreInputs(RestoreOrder(wakes), retryDelay, now)
  }

  /** Restores in order until an enqueue throws; `n` wakes got their enqueue. */
  method RestoreConsumedWakes(q: SessionWakeQueue, wakes: seq<Wake>, retryDelay: int, faults: Faults, now: Time)
    returns (stop: Stop, n: nat)
    requires q.Valid()
    modifies q
    ensures q.Valid() && q.retired == old(q.retired) && (old(q.Exact()) && !stop.ThrewAfter? ==> q.Exact())
    ensures Progress(old(q.State()), ToRestore(wakes, retryDelay, now), faults, now, n, stop)
    ensures RestoredUpTo(old(q.State()), q.State(), wakes, retryDelay, n, now)
    ensures SoonestOfEach(RestoreOrder(wakes), wakes)
    ensures exists got :: EachReplaced(old(q.State()), q.State(), RestoreOrder(wakes)[..n], retryDelay, now, got)
  {
    ghost var before := q.State();
    ValidIsFresh(q);
    var unique := DedupeWakeRestoreList(wakes);
    var inputs, queued := RestoreInputs(unique, retryDelay, now), [];
    queued, stop, n := EnqueueAll(q, inputs, faults, now);
    RestoredAfter(before, wakes, retryDelay, n, now);
    RestoreOrderMeans(wakes);
    var got := ReplacementsFound(before, unique, n, retryDelay, now);
  }

  // ----- one wake

  datatype PendingEvent = Interrupt | OtherEvent

  datatype Harness = HarnessThrew | HarnessReturned(rescheduling: bool, queuedWakes: seq<WakeInput>)

  /** What happens around one wake: clocks, the harness, other queue users, and what fails. */
  datatype World = World(
    acquires: bool,                // a wake without a handle is granted a lease
    pendingEvents: seq<PendingEvent>,
    listAt: Time, consumeAt: Time, enqueueAt: Time, restoreAt: Time,
    lockTimesOut: bool,            // the index lock is not obtained while consuming
    duringRun: seq<WakeInput>,     // wakes enqueued by anyone while the harness runs
    harness: Harness,
    renewalFailed: bool,
    enqueueFaults: Faults,         // what goes wrong while the harness's wakes are queued
    retryAt: Option<Time>,         // the session's immediate retry time
    tailFails: bool,               // reading the requeue details or the wake's events throws
    restoreFaults: Faults,         // what goes wrong while the consumed wakes are restored
    closeFails: Option<nat>)       // the activation journal append that throws on closing

  /** How the body of a wake ends. */
  datatype RunResult =
    | Skipped
    | Executed(queued: seq<Wake>, requeue: bool)
    | Threw(reason: AbandonReason)

  /** How a wake ends for its caller, who sees an exception when closing the lease throws. */
  datatype WakeResult =
    | Contended
    | Ran(run: RunResult)
    | CloseThrew(run: RunResult)

  predicate WasExecuted(r: WakeResult) {
    r.Ran? && r.run.Executed?
  }

  datatype Consumption = NothingDue | ConsumeThrew | Consumed(wakes: seq<Wake>)

  /** The wakes completed for a run: all pending on interrupt, the prefetched ones, or those due. */
  ghost predicate ToComplete(completed: seq<Wake>, before: seq<Record>, prefetched: seq<Wake>, w: World) {
    if Interrupt in w.pendingEvents then completed == StableSort(Pending(before), DueLe)
    else if prefetched != [] then
      DistinctWakes(completed) && Ids(completed) == Ids(prefetched) && forall v :: v in completed <==> GivenLast(prefetched, v)
    else completed == DueBy(before, w.consumeAt)
  }

  /** A pending wake is the run's to complete: on interrupt, when it was handed to the run, or when it is due. */
  ghost predicate ForThisRun(v: Wake, prefetched: seq<Wake>, w: World) {
    Interrupt in w.pendingEvents || if prefetched == [] then v.dueAt <= w.consumeAt else v in prefetched
  }

  /** Every pending wake that is the run's is completed, under its id. */
  lemma DueWakesAreCompleted(completed: seq<Wake>, before: seq<Record>, prefetched: seq<Wake>, w: World, v: Wake)
    requires ToComplete(completed, before, prefetched, w) && v in Pending(before) && ForThisRun(v, prefetched, w)
    ensures v.id in Ids(completed)
  {
    SortPermutes(Pending(before), DueLe);
    BatchWakes(before, w.consumeAt);
  }

  predicate Idles(before: seq<Record>, prefetched: seq<Wake>, w: World) {
    w.pendingEvents == [] && prefetched == [] && DueBy(before, w.listAt) == []
  }

  method ConsumeForWake(q: SessionWakeQueue, s: SessionId, prefetched: seq<Wake>, w: World)
    returns (c: Consumption, completed: seq<Wake>)
    requires q.Valid()
    modifies q
    ensures q.Valid() && (old(q.Exact()) && !c.ConsumeThrew? ==> q.Exact())
    ensures c.NothingDue? <==> Idles(old(q.Journal(s)), prefetched, w)
    ensures c.NothingDue? ==> completed == [] && q.State() == old(q.State())
    ensures !c.NothingDue? ==> ToComplete(completed, old(q.Journal(s)), prefetched, w)
    ensures c.ConsumeThrew? <==> !c.NothingDue? && w.lockTimesOut && completed != []
    ensures c.Consumed? ==> c.wakes == completed
    ensures DistinctWakes(completed) && q.nextId == old(q.nextId)
    ensures q.journals == AfterCompletions(old(q.journals), s, completed, w.consumeAt)
    ensures Pending(q.Journal(s)) == Filter(old(Pending(q.Journal(s))), Outside(Ids(completed)))
    ensures OnlyChanges(old(q.journals), q.journals, s)
  {
    var interrupted := Interrupt in w.pendingEvents;
    var dueWakes := [];
    if !interrupted {
      if prefetched != [] {
        dueWakes := prefetched;
      } else {
        dueWakes := q.ListPending(s, w.listAt);
      }
    }
    if w.pendingEvents == [] && dueWakes == [] {
      FilterAll(Pending(q.Journal(s)), Outside(Ids([])));
      return NothingDue, [];
    }
    if w.lockTimesOut {
      completed := Selected(q, s, prefetched, w);
      q.ConsumeUnsynced(s, completed, w.consumeAt);
      c := if completed != [] then ConsumeThrew else Consumed(completed);
    } else {
      completed := ConsumeLocked(q, s, prefetched, w);
      c := Consumed(completed);
    }
  }

  method ConsumeLocked(q: SessionWakeQueue, s: SessionId, prefetched: seq<Wake>, w: World) returns (completed: seq<Wake>)
    requires q.Valid()
    modifies q
    ensures q.Valid() && (old(q.Exact()) ==> q.Exact()) && q.nextId == old(q.nextId)
    ensures ToComplete(completed, old(q.Journal(s)), prefetched, w) && DistinctWakes(completed)
    ensures q.journals == AfterCompletions(old(q.journals), s, completed, w.consumeAt)
    ensures Pending(q.Journal(s)) == Filter(old(Pending(q.Journal(s))), Outside(Ids(completed)))
    ensures OnlyChanges(old(q.journals), q.journals, s)
  {
    DueByDistinct(q.Journal(s), w.consumeAt);
    if Interrupt in w.pendingEvents {
      completed := q.CancelPending(s, w.consumeAt);
      FilterNone(old(Pending(q.Journal(s))), Outside(Ids(completed)));
    } else if prefetched != [] {
      completed := q.ConsumeKnown(s, prefetched, w.consumeAt);
    } else {
      completed := q.ConsumeDue(s, w.consumeAt);
    }
  }

  /** The wakes a consuming operation is about to complete. */
  method Selected(q: SessionWakeQueue, s: SessionId, prefetched: seq<Wake>, w: World) returns (wakes: seq<Wake>)
    requires q.Valid()
    ensures ToComplete(wakes, q.Journal(s), prefetched, w) && DistinctWakes(wakes)
  {
    DueByDistinct(q.Journal(s), w.consumeAt);
    if Interrupt in w.pendingEvents {
      var states := FoldRecords(q.Journal(s));
      wakes := StableSort(PendingOf(states), DueLe);
    } else if prefetched != [] {
      wakes := DedupeWakeList(prefetched);
    } else {
      wakes := q.ListPending(s, w.consumeAt);
    }
  }

  function ForSession(inputs: seq<WakeInput>, s: SessionId): (r: seq<WakeInput>)
    ensures |r| == |inputs| && forall i :: 0 <= i < |inputs| ==> r[i] == inputs[i].(sessionId := s)
  {
    if inputs == [] then [] else ForSession(inputs[..|inputs| - 1], s) + [inputs[|inputs| - 1].(sessionId := s)]
  }

  /** The queue after the harness has run, others have enqueued and `n` of its own wakes were queued. */
  function AfterRun(st: QueueState, s: SessionId, w: World, n: nat): QueueState {
    var others := EnqueueAllInto(st, w.duringRun, w.enqueueAt);
    if w.harness.HarnessReturned? && n <= |ForSession(w.harness.queuedWakes, s)|
    then EnqueueAllInto(others, ForSession(w.harness.queuedWakes, s)[..n], w.enqueueAt) else others
  }

  /**
   What happens between consuming and restoring, by the queue at three moments: `consumed` before the
   run, `ran` after `queued` of the harness's wakes were queued, and how many wakes were restored then.
   */
  datatype Trace = Trace(
    consumed: QueueState, ran: QueueState, queued: nat, queueing: Stop, restored: nat, restoring: Stop)

  /** Every wake the harness asked for was queued, and a requeue is asked for when a rescheduling run has more to come. */
  ghost predicate ExecutedAs(r: RunResult, s: SessionId, w: World, t: Trace)
    requires r.Executed? && w.harness.HarnessReturned?
  {
    && |r.queued| == t.queued == |w.harness.queuedWakes|
    && AllQueued(t.ran, ForSession(w.harness.queuedWakes, s), r.queued)
    && r.requeue == (w.harness.rescheduling && (w.retryAt.Some? || PendingIn(t.ran, s) != [] || r.queued != []))
  }

  /** The run is executed exactly when the harness returned, the lease held, no enqueue failed and nor did the tail. */
  ghost predicate RanTo(r: RunResult, s: SessionId, w: World, t: Trace) {
    && t.ran == AfterRun(t.consumed, s, w, t.queued)
    && (r.Executed? || r.Threw?)
    && (r.Executed? <==> w.harness.HarnessReturned? && !w.renewalFailed && t.queueing.Finished? && !w.tailFails)
    && (r.Executed? ==> ExecutedAs(r, s, w, t))
    && (if w.harness.HarnessReturned? && !w.renewalFailed
        then Progress(AfterRun(t.consumed, s, w, 0), ForSession(w.harness.queuedWakes, s), w.enqueueFaults, w.enqueueAt,
               t.queued, t.queueing)
        else t.queued == 0 && t.queueing.Finished?)
  }

  /** The harness run and what follows it up to the acknowledgement. */
  method RunAndQueue(q: SessionWakeQueue, s: SessionId, w: World) returns (r: RunResult, stop: Stop, n: nat)
    requires q.Valid()
    modifies q
    ensures q.Valid() && q.retired == old(q.retired) && (old(q.Exact()) && !stop.ThrewAfter? ==> q.Exact())
    ensures RanTo(r, s, w, Trace(old(q.State()), q.State(), n, stop, 0, Finished)) && KeepsPending(old(q.State()), q.State())
    ensures r.Threw? ==> r.reason == if w.harness.HarnessReturned? && w.renewalFailed then RenewFailed else WakeFailed
  {
    ghost var start := q.State();
    assert w.duringRun[..|w.duringRun|] == w.duringRun;
    NoFaultsFinish(start, w.duringRun, w.enqueueAt);
    var others, _, m := EnqueueAll(q, w.duringRun, NO_FAULTS, w.enqueueAt);
    ghost var ran := q.State();
    if w.harness.HarnessThrew? {
      r, stop, n := Threw(WakeFailed), Finished, 0;
    } else if w.renewalFailed {
      r, stop, n := Threw(RenewFailed), Finished, 0;
    } else {
      r, stop, n := QueueAndFinish(q, s, w);
      KeepsPendingThrough(start, ran, q.State());
    }
    RunIs(start, q.State(), s, w, r, stop, n);
  }

  /** A run that got to queueing, or stopped at the harness or the renewal. */
  lemma RunIs(start: QueueState, after: QueueState, s: SessionId, w: World, r: RunResult, stop: Stop, n: nat)
    requires
      var others := EnqueueAllInto(start, w.duringRun, w.enqueueAt);
      if w.harness.HarnessReturned? && !w.renewalFailed then
        var inputs := ForSession(w.harness.queuedWakes, s);
        && Progress(others, inputs, w.enqueueFaults, w.enqueueAt, n, stop)
        && after == EnqueueAllInto(others, inputs[..n], w.enqueueAt)
        && (r.Executed? || r.Threw?) && (r.Executed? <==> stop.Finished? && !w.tailFails)
        && (r.Executed? ==> ExecutedAs(r, s, w, Trace(others, after, n, stop, 0, Finished)))
      else after == others && r.Threw? && n == 0 && stop.Finished?
    ensures RanTo(r, s, w, Trace(start, after, n, stop, 0, Finished))
  {
    if w.harness.HarnessReturned? {
      assert ForSession(w.harness.queuedWakes, s)[..0] == [];
    }
  }

  /** Queues what a harness that returned asked for, and reads the requeue details. */
  method QueueAndFinish(q: SessionWakeQueue, s: SessionId, w: World) returns (r: RunResult, stop: Stop, n: nat)
    requires q.Valid() && w.harness.HarnessReturned?
    modifies q
    ensures q.Valid() && q.retired == old(q.retired) && (old(q.Exact()) && !stop.ThrewAfter? ==> q.Exact())
    ensures Progress(old(q.State()), ForSession(w.harness.queuedWakes, s), w.enqueueFaults, w.enqueueAt, n, stop)
    ensures q.State() == EnqueueAllInto(old(q.State()), ForSession(w.harness.queuedWakes, s)[..n], w.enqueueAt)
    ensures KeepsPending(old(q.State()), q.State())
    ensures r == Threw(WakeFailed) || r.Executed?
    ensures r.Executed? <==> stop.Finished? && !w.tailFails
    ensures r.Executed? ==> ExecutedAs(r, s, w, Trace(old(q.State()), q.State(), n, stop, 0, Finished))
  {
    var inputs, queued := ForSession(w.harness.queuedWakes, s), [];
    queued, stop, n := EnqueueAll(q, inputs, w.enqueueFaults, w.enqueueAt);
    if !stop.Finished? || w.tailFails {
      return Threw(WakeFailed), stop, n;
    }
    var states := FoldRecords(q.Journal(s));
    var nextDueAt := EarliestDue(PendingOf(states));
    return Executed(queued, w.harness.rescheduling && (w.retryAt.Some? || nextDueAt.Some? || queued != [])), stop, n;
  }

  lemma NoFaultsFinish(st: QueueState, inputs: seq<WakeInput>, now: Time)
    ensures forall n, stop :: Progress(st, inputs, NO_FAULTS, now, n, stop) ==> stop.Finished? && n == |inputs|
  {
  }

  lemma KeepsPendingThrough(a: QueueState, b: QueueState, c: QueueState)
    requires KeepsPending(a, b) && KeepsPending(b, c)
    ensures KeepsPending(a, c)
  {
    forall t ensures PendingIn(a, t) <= PendingIn(c, t) {
      assert PendingIn(a, t) <= PendingIn(b, t) <= PendingIn(c, t);
    }
  }

  /** The lock is never missed, so that no enqueue throws after its append and no consuming call throws. */
  ghost predicate LockAlwaysObtained(w: World) {
    !w.lockTimesOut && forall k: nat :: !w.enqueueFaults.lock(k) && !w.restoreFaults.lock(k)
  }

  /**
   How many of the completed wakes get their restoring enqueue: none unless the run threw after
   consuming and replay is on; otherwise those up to the first enqueue that throws, which counts
   when it threw for want of the lock.
   */
  ghost predicate Restoring(
      r: RunResult, completed: seq<Wake>, w: World, replay: bool, retryDelay: int, t: Trace)
  {
    if r.Threw? && replay && completed != [] && !w.lockTimesOut
    then Progress(t.ran, ToRestore(completed, retryDelay, w.restoreAt), w.restoreFaults, w.restoreAt, t.restored, t.restoring)
    else t.restored == 0 && t.restoring.Finished?
  }

  /** Everything pending in `a` but the completed wakes of `s` is pending in `b`. */
  ghost predicate OthersKept(a: QueueState, b: QueueState, s: SessionId, completed: seq<Wake>) {
    forall t, v :: v in PendingIn(a, t) && !(t == s && v.id in Ids(completed)) ==> v in PendingIn(b, t)
  }

  /** The completed wakes, each once, are what the run consumes, and are not pending until restored. */
  ghost predicate Consumes(
      before: QueueState, s: SessionId, prefetched: seq<Wake>, w: World, completed: seq<Wake>, consumed: QueueState) {
    && ToComplete(completed, JournalOf(before.journals, s), prefetched, w) && DistinctWakes(completed)
    && consumed == QueueState(AfterCompletions(before.journals, s, completed, w.consumeAt), before.nextId)
    && PendingIn(consumed, s) == Filter(PendingIn(before, s), Outside(Ids(completed)))
  }

  /**
   What a wake does to the queue. It is skipped exactly when there was nothing to do. Otherwise it
   consumes and, unless the consuming call throws for want of the lock, runs; `RanTo` says when it
   is executed. After a throw the first of the completed wakes are restored, all of them conserved
   if and only if each later one has a key that is held. Nothing else pending is lost.
   */
  ghost predicate WakeOutcome(
      before: QueueState, after: QueueState, s: SessionId, prefetched: seq<Wake>, w: World, replay: bool, retryDelay: int,
      r: RunResult, completed: seq<Wake>, t: Trace)
  {
    && (r.Skipped? <==> Idles(JournalOf(before.journals, s), prefetched, w))
    && (if r.Skipped? then after == before && completed == []
        else
          && Consumes(before, s, prefetched, w, completed, t.consumed)
          && (if ConsumingThrew(w, completed) then t.ran == t.consumed && r.Threw? else RanTo(r, s, w, t)))
    && OthersKept(before, t.ran, s, completed)
    && Restoring(r, completed, w, replay, retryDelay, t)
    && RestoredUpTo(t.ran, after, completed, retryDelay, t.restored, w.restoreAt)
    && (r.Threw? ==> r.reason == ReasonOf(w, completed, t))
  }

  /** The consuming call throws when it has something to complete and the index lock is not obtained. */
  predicate ConsumingThrew(w: World, completed: seq<Wake>) {
    w.lockTimesOut && completed != []
  }

  /** A failed renewal is named first; otherwise the claim counts as not executed only when the restoring itself threw. */
  function ReasonOf(w: World, completed: seq<Wake>, t: Trace): AbandonReason {
    if w.harness.HarnessReturned? && w.renewalFailed && !ConsumingThrew(w, completed) then RenewFailed
    else if t.restoring.Finished? then WakeFailed
    else NotExecuted
  }

  /** The journal's word for a claim whose wake ended this way. */
  predicate ClaimTells(word: seq<ClaimEvent>, run: RunResult) {
    match run
    case Skipped => word == [Leased, Abandoned(Idle)]
    case Threw(reason) => word == [Leased, Abandoned(reason)]
    case Executed(_, requeue) => word == if requeue then [Leased, Acked, Requeued] else [Leased, Acked]
  }

  /**
   Conservation, both ways: see `WakeOutcome`. The lease is closed exactly once whatever
   happens, and a throw while closing fails the wake for its caller and restores nothing.
   */
  method WakeSessionOnce(
      q: SessionWakeQueue, s: SessionId, handle: WakeLease?, prefetched: seq<Wake>, w: World,
      replay: bool, retryDelay: int)
    returns (r: WakeResult, lease: WakeLease?, completed: seq<Wake>, ghost trace: Trace)
    requires q.Valid() && (handle != null ==> handle.Valid() && !handle.closed)
    modifies q, handle, if handle != null then {handle.journal} else {}
    ensures q.Valid()
    ensures old(q.Exact()) && LockAlwaysObtained(w) ==> q.Exact()
    ensures r.Contended? <==> handle == null && !w.acquires
    ensures r.Contended? ==> q.State() == old(q.State()) && completed == []
    ensures !r.Contended? ==>
              WakeOutcome(old(q.State()), q.State(), s, prefetched, w, replay, retryDelay, r.run, completed, trace)
    // the lease
    ensures r.Contended? <==> lease == null
    ensures lease != null ==> lease.Valid() && lease.closed && lease.releases == 1
    ensures handle != null ==> lease == handle
    ensures r.CloseThrew? <==> !r.Contended? && handle != null && handle.journal != null && ClosingFails(w, r.run)
    ensures handle != null && handle.journal != null ==>
              && handle.journal.Valid() && handle.journal.open == old(handle.journal.open) - {handle.claimId}
              && handle.journal.nextClaim == old(handle.journal.nextClaim)
              && (r.Ran? ==> ClaimTells(Word(handle.journal.records, handle.claimId), r.run))
              && (forall c :: c != handle.claimId ==> Word(handle.journal.records, c) == old(Word(handle.journal.records, c)))
  {
    lease := handle;
    if handle == null {
      if !w.acquires {
        return Contended, null, [], Trace(q.State(), q.State(), 0, Finished, 0, Finished);
      }
      lease := new WakeLease.Owned();
    }
    r, completed, trace := WakeUnder(q, s, lease, prefetched, w, replay, retryDelay);
  }

  /** A wake under a lease, which it closes. */
  method WakeUnder(
      q: SessionWakeQueue, s: SessionId, lease: WakeLease, prefetched: seq<Wake>, w: World, replay: bool, retryDelay: int)
    returns (r: WakeResult, completed: seq<Wake>, ghost trace: Trace)
    requires q.Valid() && lease.Valid() && !lease.closed
    modifies q, lease, lease.journal
    ensures q.Valid() && (old(q.Exact()) && LockAlwaysObtained(w) ==> q.Exact())
    ensures !r.Contended? && WakeOutcome(old(q.State()), q.State(), s, prefetched, w, replay, retryDelay, r.run, completed, trace)
    ensures lease.Valid() && lease.closed && lease.releases == 1
    ensures r.CloseThrew? <==> lease.journal != null && ClosingFails(w, r.run)
    ensures lease.journal != null ==>
              && lease.journal.Valid() && lease.journal.open == old(lease.journal.open) - {lease.claimId}
              && lease.journal.nextClaim == old(lease.journal.nextClaim)
              && (r.Ran? ==> ClaimTells(Word(lease.journal.records, lease.claimId), r.run))
              && (forall c :: c != lease.claimId ==> Word(lease.journal.records, c) == old(Word(lease.journal.records, c)))
  {
    var run;
    run, completed, trace := ConsumeRunRestore(q, s, prefetched, w, replay, retryDelay);
    r := CloseLease(lease, run, w);
  }

  method CloseLease(lease: WakeLease, run: RunResult, w: World) returns (r: WakeResult)
    requires lease.Valid() && !lease.closed
    modifies lease, lease.journal
    ensures !r.Contended? && r.run == run && lease.Valid() && lease.closed && lease.releases == 1
    ensures r.CloseThrew? <==> lease.journal != null && ClosingFails(w, run)
    ensures lease.journal != null ==>
              && lease.journal.Valid() && lease.journal.open == old(lease.journal.open) - {lease.claimId}
              && lease.journal.nextClaim == old(lease.journal.nextClaim)
              && (r.Ran? ==> ClaimTells(Word(lease.journal.records, lease.claimId), run))
              && (forall c :: c != lease.claimId ==> Word(lease.journal.records, c) == old(Word(lease.journal.records, c)))
  {
    var closeThrew := lease.Close(ClosingFor(run), w.closeFails);
    r := if closeThrew then CloseThrew(run) else Ran(run);
  }

  function ClosingFor(r: RunResult): Closing {
    match r
    case Executed(_, requeue) => Ack(requeue)
    case Threw(reason) => Abandon(reason)
    case Skipped => Abandon(Idle)
  }

  /** The journal append that throws is one that closing comes to make: the second is made for a requeue. */
  predicate ClosingFails(w: World, run: RunResult) {
    w.closeFails == Some(0) || (w.closeFails == Some(1) && run.Executed? && run.requeue)
  }

  /** Nothing pending before is lost by completing `completed`, but those very wakes. */
  lemma OthersStayPending(a: QueueState, b: QueueState, c: QueueState, s: SessionId, completed: seq<Wake>)
    requires OnlyChanges(a.journals, b.journals, s) && KeepsPending(b, c)
    requires PendingIn(b, s) == Filter(PendingIn(a, s), Outside(Ids(completed)))
    ensures OthersKept(a, c, s, completed)
  {
    forall t, v | v in PendingIn(a, t) && !(t == s && v.id in Ids(completed)) ensures v in PendingIn(c, t) {
      assert v in PendingIn(b, t) by {
        assert t != s ==> JournalOf(b.journals, t) == JournalOf(a.journals, t);
      }
    }
  }

  /** The body of a wake between taking the lease and closing it. */
  method ConsumeRunRestore(
      q: SessionWakeQueue, s: SessionId, prefetched: seq<Wake>, w: World, replay: bool, retryDelay: int)
    returns (r: RunResult, completed: seq<Wake>, ghost trace: Trace)
    requires q.Valid()
    modifies q
    ensures q.Valid()
    ensures old(q.Exact()) && LockAlwaysObtained(w) ==> q.Exact()
    ensures WakeOutcome(old(q.State()), q.State(), s, prefetched, w, replay, retryDelay, r, completed, trace)
  {
    ghost var start := q.State();
    var c;
    c, completed := ConsumeForWake(q, s, prefetched, w);
    ghost var consumed := q.State();
    if !c.Consumed? {
      r := if c.NothingDue? then Skipped else Threw(WakeFailed);
      trace := NothingRan(q, start, s, completed, retryDelay, w);
    } else {
      r, trace := RunLocked(q, start, s, completed, w);
      r, trace := RestoreOnThrow(q, s, r, completed, w, replay, retryDelay, trace);
    }
    Outcome(start, q.State(), s, prefetched, w, replay, retryDelay, r, completed, consumed, trace);
  }

  /** The parts of a wake put together. */
  lemma Outcome(
      before: QueueState, after: QueueState, s: SessionId, prefetched: seq<Wake>, w: World, replay: bool, retryDelay: int,
      r: RunResult, completed: seq<Wake>, consumed: QueueState, t: Trace)
    requires r.Skipped? <==> Idles(JournalOf(before.journals, s), prefetched, w)
    requires r.Skipped? ==> after == before && completed == []
    requires !r.Skipped? ==> Consumes(before, s, prefetched, w, completed, consumed)
    requires t.consumed == consumed && OthersKept(before, t.ran, s, completed)
    requires !r.Skipped? ==> if ConsumingThrew(w, completed) then t.ran == consumed && r.Threw? else RanTo(r, s, w, t)
    requires Restoring(r, completed, w, replay, retryDelay, t)
    requires RestoredUpTo(t.ran, after, completed, retryDelay, t.restored, w.restoreAt)
    requires r.Threw? ==> r.reason == ReasonOf(w, completed, t)
    ensures WakeOutcome(before, after, s, prefetched, w, replay, retryDelay, r, completed, t)
  {
  }

  /** The run, with what restoring after it needs to know. */
  method RunLocked(q: SessionWakeQueue, ghost start: QueueState, s: SessionId, ghost completed: seq<Wake>, w: World)
    returns (r: RunResult, ghost trace: Trace)
    requires q.Valid() && OnlyChanges(start.journals, q.journals, s)
    requires PendingIn(q.State(), s) == Filter(PendingIn(start, s), Outside(Ids(completed)))
    modifies q
    ensures q.Valid() && (old(q.Exact()) && LockAlwaysObtained(w) ==> q.Exact())
    ensures RanTo(r, s, w, trace) && trace.consumed == old(q.State()) && trace.ran == q.State()
    ensures OthersKept(start, q.State(), s, completed)
    ensures r.Threw? ==> r.reason == if w.harness.HarnessReturned? && w.renewalFailed then RenewFailed else WakeFailed
  {
    ghost var consumed := q.State();
    var stop, n;
    r, stop, n := RunAndQueue(q, s, w);
    trace := Trace(consumed, q.State(), n, stop, 0, Finished);
    LockFaultsNeedLock(r, s, w, trace);
    OthersStayPending(start, consumed, q.State(), s, completed);
  }

  /** The catch branch of a wake: restores what was consumed, and names the reason. */
  method RestoreOnThrow(
      q: SessionWakeQueue, ghost s: SessionId, run: RunResult, consumed: seq<Wake>, w: World, replay: bool, retryDelay: int,
      ghost ran: Trace)
    returns (r: RunResult, ghost trace: Trace)
    requires q.Valid() && RanTo(run, s, w, ran) && ran.ran == q.State() && !ConsumingThrew(w, consumed)
    requires run.Threw? ==> run.reason == if w.harness.HarnessReturned? && w.renewalFailed then RenewFailed else WakeFailed
    modifies q
    ensures q.Valid() && (old(q.Exact()) && !trace.restoring.ThrewAfter? ==> q.Exact())
    ensures trace == ran.(restored := trace.restored, restoring := trace.restoring)
    ensures RanTo(r, s, w, trace) && Restoring(r, consumed, w, replay, retryDelay, trace)
    ensures RestoredUpTo(ran.ran, q.State(), consumed, retryDelay, trace.restored, w.restoreAt)
    ensures r.Threw? ==> r.reason == ReasonOf(w, consumed, trace)
    ensures LockAlwaysObtained(w) ==> !trace.restoring.ThrewAfter?
  {
    r := run;
    if r.Threw? && replay && |consumed| > 0 {
      var stop, n := RestoreConsumedWakes(q, consumed, retryDelay, w.restoreFaults, w.restoreAt);
      trace := ran.(restored := n, restoring := stop);
      if !stop.Finished? && !r.reason.RenewFailed? {
        r := Threw(NotExecuted);
      }
    } else {
      trace := ran.(restored := 0, restoring := Finished);
      NothingRestored(q, consumed, retryDelay, w);
    }
  }

  lemma LockFaultsNeedLock(r: RunResult, s: SessionId, w: World, t: Trace)
    requires RanTo(r, s, w, t)
    ensures LockAlwaysObtained(w) ==> !t.queueing.ThrewAfter?
  {
  }

  lemma NothingRestored(q: SessionWakeQueue, completed: seq<Wake>, retryDelay: int, w: World)
    requires q.Valid()
    ensures RestoredUpTo(q.State(), q.State(), completed, retryDelay, 0, w.restoreAt)
  {
    ValidIsFresh(q);
    RestoredAfter(q.State(), completed, retryDelay, 0, w.restoreAt);
    assert ToRestore(completed, retryDelay, w.restoreAt)[..0] == [];
  }

  lemma NothingRan(
      q: SessionWakeQueue, start: QueueState, s: SessionId, completed: seq<Wake>, retryDelay: int, w: World)
    returns (trace: Trace)
    requires q.Valid() && OnlyChanges(start.journals, q.journals, s)
    requires PendingIn(q.State(), s) == Filter(PendingIn(start, s), Outside(Ids(completed)))
    ensures trace == Trace(q.State(), q.State(), 0, Finished, 0, Finished)
    ensures RestoredUpTo(q.State(), q.State(), completed, retryDelay, 0, w.restoreAt)
    ensures OthersKept(start, q.State(), s, completed)
  {
    trace := Trace(q.State(), q.State(), 0, Finished, 0, Finished);
    NothingRestored(q, completed, retryDelay, w);
    OthersStayPending(start, q.State(), q.State(), s, completed);
  }

  /**
   With replay on, the lock obtained and no enqueue failing, a run that throws loses nothing: the
   completed wakes, in some order, are each replaced by a pending wake of their own, put off by
   the delay, or stood for by one that holds their key.
   */
  lemma NothingLostWithLock(
      before: QueueState, after: QueueState, s: SessionId, prefetched: seq<Wake>, w: World, retryDelay: int,
      r: RunResult, completed: seq<Wake>, trace: Trace)
    returns (order: seq<Wake>, got: seq<Wake>)
    requires FreshIds(before) && r.Threw? && LockAlwaysObtained(w) && w.restoreFaults.beforeAppend.None?
    requires WakeOutcome(before, after, s, prefetched, w, true, retryDelay, r, completed, trace)
    ensures multiset(order) == multiset(completed) && forall i, j :: 0 <= i < j < |order| ==> order[i].dueAt <= order[j].dueAt
    ensures EachReplaced(trace.ran, after, order, retryDelay, w.restoreAt, got)
    ensures Conserved(trace.ran, after, ToRestore(completed, retryDelay, w.restoreAt))
  {
    AllRestored(r, completed, w, retryDelay, trace);
    order := RestoreOrder(completed);
    RestoreOrderOfDistinct(completed);
    RestoreOrderMeans(completed);
    RanKeepsFresh(before, s, w, completed, trace);
    got := AllReplaced(trace.ran, after, completed, retryDelay, trace.restored, w.restoreAt);
  }

  lemma RanKeepsFresh(before: QueueState, s: SessionId, w: World, completed: seq<Wake>, t: Trace)
    requires FreshIds(before)
    requires t.consumed == QueueState(AfterCompletions(before.journals, s, completed, w.consumeAt), before.nextId)
    requires t.ran == t.consumed || t.ran == AfterRun(t.consumed, s, w, t.queued)
    ensures FreshIds(t.ran)
  {
    CompletingKeepsFresh(before, s, completed, w.consumeAt);
    EnqueueAllKeepsFresh(t.consumed, w.duringRun, w.enqueueAt);
    if w.harness.HarnessReturned? && t.queued <= |ForSession(w.harness.queuedWakes, s)| {
      EnqueueAllKeepsFresh(
        EnqueueAllInto(t.consumed, w.duringRun, w.enqueueAt), ForSession(w.harness.queuedWakes, s)[..t.queued], w.enqueueAt);
    }
  }

  lemma AllRestored(r: RunResult, completed: seq<Wake>, w: World, retryDelay: int, t: Trace)
    requires r.Threw? && LockAlwaysObtained(w) && w.restoreFaults.beforeAppend.None?
    requires Restoring(r, completed, w, true, retryDelay, t)
    ensures t.restored == |RestoreOrder(completed)|
  {
    if completed == [] {
      assert RestoreOrder(completed) == [];
    }
  }

  lemma AllReplaced(before: QueueState, after: QueueState, wakes: seq<Wake>, retryDelay: int, n: nat, now: Time)
    returns (got: seq<Wake>)
    requires FreshIds(before) && n == |RestoreOrder(wakes)| && RestoredUpTo(before, after, wakes, retryDelay, n, now)
    ensures EachReplaced(before, after, RestoreOrder(wakes), retryDelay, now, got)
    ensures Conserved(before, after, ToRestore(wakes, retryDelay, now))
  {
    var order := RestoreOrder(wakes);
    got := ReplacementsFound(before, order, n, retryDelay, now);
    assert order[..n] == order;
  }

  /** A wake is skipped only when nothing of the session was due at the moment of the look, and changes nothing. */
  lemma SkippedHadNothingDue(
      before: QueueState, after: QueueState, s: SessionId, prefetched: seq<Wake>, w: World, replay: bool, retryDelay: int,
      completed: seq<Wake>, t: Trace)
    requires WakeOutcome(before, after, s, prefetched, w, replay, retryDelay, Skipped, completed, t)
    ensures after == before && prefetched == [] && w.pendingEvents == []
    ensures forall v :: v in PendingIn(before, s) ==> v.dueAt > w.listAt
  {
    BatchWakes(JournalOf(before.journals, s), w.listAt);
  }

  lemma CompletingKeepsFresh(before: QueueState, s: SessionId, completed: seq<Wake>, at: Time)
    requires FreshIds(before)
    ensures FreshIds(QueueState(AfterCompletions(before.journals, s, completed, at), before.nextId))
  {
    CompletionsEnqueueNothing(JournalOf(before.journals, s), completed, at);
    var after := AfterCompletions(before.journals, s, completed, at);
    assert forall t :: EnqueuedWakes(JournalOf(after, t)) == EnqueuedWakes(JournalOf(before.journals, t));
  }

  lemma {:induction false} AddedHaveNewIds(st: QueueState, inputs: seq<WakeInput>, now: Time, t: SessionId)
    requires FreshIds(st)
    ensures forall x :: x in PendingIn(EnqueueAllInto(st, inputs, now), t) ==> x in PendingIn(st, t) || x.id >= st.nextId
  {
    if inputs != [] {
      var front := inputs[..|inputs| - 1];
      AddedHaveNewIds(st, front, now, t);
      NextIdAfter(st, front, now);
      EnqueueAllKeepsFresh(st, front, now);
      EnqueueAdds(EnqueueAllInto(st, front, now), inputs[|inputs| - 1], now, t);
    }
  }

  lemma AfterRunAddsNewIds(st: QueueState, s: SessionId, w: World, n: nat, t: SessionId)
    requires FreshIds(st)
    ensures forall x :: x in PendingIn(AfterRun(st, s, w, n), t) ==> x in PendingIn(st, t) || x.id >= st.nextId
  {
    var others := EnqueueAllInto(st, w.duringRun, w.enqueueAt);
    AddedHaveNewIds(st, w.duringRun, w.enqueueAt, t);
    NextIdAfter(st, w.duringRun, w.enqueueAt);
    EnqueueAllKeepsFresh(st, w.duringRun, w.enqueueAt);
    if w.harness.HarnessReturned? && n <= |ForSession(w.harness.queuedWakes, s)| {
      AddedHaveNewIds(others, ForSession(w.harness.queuedWakes, s)[..n], w.enqueueAt, t);
    }
  }

  /** Once a session is executed, no wake of the run is pending under its id any more. */
  lemma ExecutedWakesAreGone(
      before: QueueState, after: QueueState, s: SessionId, prefetched: seq<Wake>, w: World, replay: bool, retryDelay: int,
      r: RunResult, completed: seq<Wake>, t: Trace, v: Wake)
    requires FreshIds(before) && r.Executed?
    requires WakeOutcome(before, after, s, prefetched, w, replay, retryDelay, r, completed, t)
    requires v in PendingIn(before, s) && ForThisRun(v, prefetched, w)
    ensures forall x :: x in PendingIn(after, s) ==> x.id != v.id
  {
    DueWakesAreCompleted(completed, JournalOf(before.journals, s), prefetched, w, v);
    ExecutedRestoresNothing(before, after, s, prefetched, w, replay, retryDelay, r, completed, t);
    CompletedStayGone(before, s, completed, w, t, v);
  }

  lemma ExecutedRestoresNothing(
      before: QueueState, after: QueueState, s: SessionId, prefetched: seq<Wake>, w: World, replay: bool, retryDelay: int,
      r: RunResult, completed: seq<Wake>, t: Trace)
    requires WakeOutcome(before, after, s, prefetched, w, replay, retryDelay, r, completed, t) && r.Executed?
    ensures after == t.ran == AfterRun(t.consumed, s, w, t.queued)
    ensures Consumes(before, s, prefetched, w, completed, t.consumed)
  {
    assert ToRestore(completed, retryDelay, w.restoreAt)[..0] == [];
  }

  lemma CompletedStayGone(before: QueueState, s: SessionId, completed: seq<Wake>, w: World, t: Trace, v: Wake)
    requires FreshIds(before) && v in PendingIn(before, s) && v.id in Ids(completed)
    requires t.consumed == QueueState(AfterCompletions(before.journals, s, completed, w.consumeAt), before.nextId)
    requires PendingIn(t.consumed, s) == Filter(PendingIn(before, s), Outside(Ids(completed)))
    ensures forall x :: x in PendingIn(AfterRun(t.consumed, s, w, t.queued), s) ==> x.id != v.id
  {
    PendingWasEnqueued(JournalOf(before.journals, s));
    CompletingKeepsFresh(before, s, completed, w.consumeAt);
    AfterRunAddsNewIds(t.consumed, s, w, t.queued, s);
  }
}
