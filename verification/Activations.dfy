/**
 Activations: one session's claim on the next execution, and the order and listing the
 activation queue builds from runnable sessions and due wakes.
 */
module Activations {
  import opened Options
  import opened Sorting
  import opened WakeJournal
  import opened WakeIndex
  import opened SessionWakeQueues

  datatype ActivationKind = PendingEvents | QueuedWake

  datatype Activation = Activation(
    sessionId: SessionId, kind: ActivationKind, priority: Priority, dueAt: Option<Time>,
    reason: string, note: Option<string>, dueWakes: seq<Wake>)

  datatype RunnableEntry = RunnableEntry(
    sessionId: SessionId, deferUntil: Option<Time>, pendingEventType: Option<string>)

  /** What the session store and the wake queue report at one moment. */
  datatype Snapshot = Snapshot(
    runnable: seq<RunnableEntry>, due: seq<Batch>, leased: set<SessionId>, at: Time)

  // ----- ranking

  function PriorityRank(p: Priority): int {
    match p case High => 3 case Normal => 2 case Low => 1
  }

  function KindRank(k: ActivationKind): int {
    match k case PendingEvents => 0 case QueuedWake => 1
  }

  function CompareActivations(left: Activation, right: Activation): int {
    var priorityDiff := PriorityRank(right.priority) - PriorityRank(left.priority);
    var kindDiff := KindRank(left.kind) - KindRank(right.kind);
    if priorityDiff != 0 then priorityDiff
    else if kindDiff != 0 then kindDiff
    else if left.dueAt.Some? && right.dueAt.Some? && left.dueAt != right.dueAt then left.dueAt.value - right.dueAt.value
    else if left.dueAt.Some? != right.dueAt.Some? then (if left.dueAt.Some? then 1 else -1)
    else left.sessionId - right.sessionId
  }

  predicate RanksNoLater(a: Activation, b: Activation) {
    CompareActivations(a, b) <= 0
  }

  // ----- what the ranking means

  predicate MoreUrgent(p: Priority, q: Priority) {
    (p.High? && !q.High?) || (p.Normal? && q.Low?)
  }

  /** No due time comes before any due time. */
  predicate DueSooner(a: Option<Time>, b: Option<Time>) {
    b.Some? && (a.None? || a.value < b.value)
  }

  /** The urgent priority first, then events before wakes, then the sooner due time, then the lower session. */
  predicate StandsBefore(a: Activation, b: Activation) {
    || MoreUrgent(a.priority, b.priority)
    || (a.priority == b.priority && a.kind.PendingEvents? && b.kind.QueuedWake?)
    || (a.priority == b.priority && a.kind == b.kind && DueSooner(a.dueAt, b.dueAt))
    || (a.priority == b.priority && a.kind == b.kind && a.dueAt == b.dueAt && a.sessionId < b.sessionId)
  }

  /** The comparator says which activation stands first, and ties only activations of one session. */
  lemma ActivationOrder()
    ensures TotalPreorder(RanksNoLater)
    ensures forall a, b :: CompareActivations(a, b) < 0 <==> StandsBefore(a, b)
    ensures forall a, b :: RanksNoLater(a, b) <==> !StandsBefore(b, a)
    ensures forall a, b :: CompareActivations(a, b) == 0 <==>
              a.sessionId == b.sessionId && a.priority == b.priority && a.kind == b.kind && a.dueAt == b.dueAt
  {
    forall a, b, c | RanksNoLater(a, b) && RanksNoLater(b, c) ensures RanksNoLater(a, c) {}
  }

  ghost predicate InOrder(activations: seq<Activation>) {
    forall i, j :: 0 <= i < j < |activations| ==> StandsBefore(activations[i], activations[j])
  }

  // ----- building the lists

  function ImmediateOf(e: RunnableEntry): Activation {
    Activation(e.sessionId, PendingEvents, High, None, e.pendingEventType.GetOr("session.pending_events"), None, [])
  }

  function DelayedOf(b: Batch): Activation
    requires b.dueWakes != []
  {
    var next := b.dueWakes[0];
    Activation(b.sessionId, QueuedWake, next.priority, Some(next.dueAt), next.reason, next.note, b.dueWakes)
  }

  predicate Eligible(snap: Snapshot, allowed: Option<set<SessionId>>, s: SessionId) {
    (allowed.Some? ==> s in allowed.value) && s !in snap.leased
  }

  predicate RunnableNow(snap: Snapshot, allowed: Option<set<SessionId>>, e: RunnableEntry) {
    Eligible(snap, allowed, e.sessionId) && !(e.deferUntil.Some? && e.deferUntil.value > snap.at)
  }

  method ListImmediateActivations(snap: Snapshot, allowed: Option<set<SessionId>>) returns (activations: seq<Activation>)
    requires OnePerSession(snap)
    ensures forall a :: a in activations <==> IsImmediate(snap, allowed, a)
    ensures DistinctSessions(activations)
  {
    activations := [];
    for i := 0 to |snap.runnable|
      invariant forall a :: a in activations <==>
                  exists k :: 0 <= k < i && RunnableNow(snap, allowed, snap.runnable[k]) && ImmediateFor(snap.runnable[k], a)
      invariant DistinctSessions(activations)
    {
      var entry := snap.runnable[i];
      if !Allowed(entry.sessionId, allowed) {
        continue;
      }
      if entry.sessionId in snap.leased {
        continue;
      }
      if entry.deferUntil.Some? && entry.deferUntil.value > snap.at {
        continue;
      }
      AppendDistinct(activations, ImmediateOf(entry));
      activations := activations + [ImmediateOf(entry)];
    }
  }

  method ListDelayedActivations(snap: Snapshot, allowed: Option<set<SessionId>>) returns (activations: seq<Activation>)
    requires OnePerSession(snap)
    ensures forall a :: a in activations <==> IsDelayed(snap, allowed, a)
    ensures DistinctSessions(activations)
  {
    activations := [];
    for i := 0 to |snap.due|
      invariant forall a :: a in activations <==>
                  exists k :: 0 <= k < i && DueNow(snap, allowed, snap.due[k]) && DelayedFor(snap.due[k], a)
      invariant DistinctSessions(activations)
    {
      var batch := snap.due[i];
      if !Allowed(batch.sessionId, allowed) {
        continue;
      }
      if batch.sessionId in snap.leased {
        continue;
      }
      if |batch.dueWakes| == 0 {
        continue;
      }
      AppendDistinct(activations, DelayedOf(batch));
      activations := activations + [DelayedOf(batch)];
    }
  }

  predicate DueNow(snap: Snapshot, allowed: Option<set<SessionId>>, b: Batch) {
    Eligible(snap, allowed, b.sessionId) && b.dueWakes != []
  }

  /** Immediate work hides delayed work of the same session. */
  function MergeActivations(immediate: seq<Activation>, delayed: seq<Activation>): seq<Activation> {
    immediate + Filter(delayed, NotAmong(set a | a in immediate :: a.sessionId))
  }

  function NotAmong(sessions: set<SessionId>): Activation -> bool {
    (a: Activation) => a.sessionId !in sessions
  }

  // ----- what the listing must be

  /** The indexes behind a snapshot hold one entry per session. */
  ghost predicate OnePerSession(snap: Snapshot) {
    && (forall i, j :: 0 <= i < j < |snap.runnable| ==> snap.runnable[i].sessionId != snap.runnable[j].sessionId)
    && (forall i, j :: 0 <= i < j < |snap.due| ==> snap.due[i].sessionId != snap.due[j].sessionId)
  }

  function SessionOfActivation(a: Activation): SessionId {
    a.sessionId
  }

  ghost predicate DistinctSessions(activations: seq<Activation>) {
    forall i, j :: 0 <= i < j < |activations| ==> activations[i].sessionId != activations[j].sessionId
  }

  /** Work on waiting events: urgent, due at once, and named after the event when its type is known. */
  predicate ImmediateFor(e: RunnableEntry, a: Activation) {
    && a.sessionId == e.sessionId && a.kind.PendingEvents? && a.priority.High?
    && a.dueAt.None? && a.note.None? && a.dueWakes == []
    && a.reason == if e.pendingEventType.Some? then e.pendingEventType.value else "session.pending_events"
  }

  /** Work on due wakes: what the first of them says, with all of them at hand. */
  predicate DelayedFor(b: Batch, a: Activation) {
    && a.sessionId == b.sessionId && a.kind.QueuedWake? && a.dueWakes == b.dueWakes
    && b.dueWakes != []
    && a.priority == b.dueWakes[0].priority && a.dueAt == Some(b.dueWakes[0].dueAt)
    && a.reason == b.dueWakes[0].reason && a.note == b.dueWakes[0].note
  }

  ghost predicate IsImmediate(snap: Snapshot, allowed: Option<set<SessionId>>, a: Activation) {
    exists k :: 0 <= k < |snap.runnable| && RunnableNow(snap, allowed, snap.runnable[k]) && ImmediateFor(snap.runnable[k], a)
  }

  ghost predicate IsDelayed(snap: Snapshot, allowed: Option<set<SessionId>>, a: Activation) {
    exists k :: 0 <= k < |snap.due| && DueNow(snap, allowed, snap.due[k]) && DelayedFor(snap.due[k], a)
  }

  /** Ready: immediate, or delayed for a session with no immediate work. */
  ghost predicate IsReady(snap: Snapshot, allowed: Option<set<SessionId>>, a: Activation) {
    || IsImmediate(snap, allowed, a)
    || (IsDelayed(snap, allowed, a) && forall b :: IsImmediate(snap, allowed, b) ==> b.sessionId != a.sessionId)
  }

  /** A snapshot that reports a scan of the journals delays exactly the eligible sessions with a wake due, each with all of them. */
  lemma DelayedAreDue(snap: Snapshot, allowed: Option<set<SessionId>>, journals: map<SessionId, seq<Record>>, s: SessionId)
    requires IsFullScan(snap.due, journals, snap.at)
    ensures (exists a :: IsDelayed(snap, allowed, a) && a.sessionId == s) <==>
              Eligible(snap, allowed, s) && exists v :: v in Pending(JournalOf(journals, s)) && v.dueAt <= snap.at
    ensures forall a :: IsDelayed(snap, allowed, a) && a.sessionId == s ==> a.dueWakes == DueBy(JournalOf(journals, s), snap.at)
  {
    var journal := JournalOf(journals, s);
    var due := DueBy(journal, snap.at);
    BatchWakes(journal, snap.at);
    if Eligible(snap, allowed, s) && due != [] {
      var b := Batch(s, DueOf(journals, s).value, due);
      assert ScansAs(b, journals, snap.at);
      var k :| 0 <= k < |snap.due| && snap.due[k] == b;
      assert IsDelayed(snap, allowed, DelayedOf(snap.due[k]));
    }
    forall a | IsDelayed(snap, allowed, a) && a.sessionId == s
      ensures Eligible(snap, allowed, s) && a.dueWakes == due && due != [] && due[0] in due
    {
      var k :| 0 <= k < |snap.due| && DueNow(snap, allowed, snap.due[k]) && DelayedFor(snap.due[k], a);
      assert ScansAs(snap.due[k], journals, snap.at);
    }
  }

  lemma DueSessionIsReady(snap: Snapshot, allowed: Option<set<SessionId>>, journals: map<SessionId, seq<Record>>, s: SessionId, v: Wake)
    returns (a: Activation)
    requires IsFullScan(snap.due, journals, snap.at) && Eligible(snap, allowed, s)
    requires v in Pending(JournalOf(journals, s)) && v.dueAt <= snap.at
    ensures IsReady(snap, allowed, a) && a.sessionId == s
  {
    DelayedAreDue(snap, allowed, journals, s);
    if b :| IsImmediate(snap, allowed, b) && b.sessionId == s {
      a := b;
    } else {
      a :| IsDelayed(snap, allowed, a) && a.sessionId == s;
    }
  }

  lemma AppendDistinct(activations: seq<Activation>, a: Activation)
    requires DistinctSessions(activations) && forall x :: x in activations ==> x.sessionId != a.sessionId
    ensures DistinctSessions(activations + [a])
  {
    assert forall k :: 0 <= k < |activations| ==> activations[k] in activations;
  }

  lemma MergeDistinct(immediate: seq<Activation>, delayed: seq<Activation>)
    requires DistinctSessions(immediate) && DistinctSessions(delayed)
    ensures DistinctSessions(MergeActivations(immediate, delayed))
  {
    var sessions := set a | a in immediate :: a.sessionId;
    var rest := Filter(delayed, NotAmong(sessions));
    FilterDistinct(delayed, NotAmong(sessions), SessionOfActivation);
    forall i, j | 0 <= i < |immediate| && 0 <= j < |rest| ensures immediate[i].sessionId != rest[j].sessionId {
      assert immediate[i] in immediate && rest[j] in rest;
    }
  }

  /**
   The canonical listing: exactly the ready activations, one per session, each standing before
   the next. `ReadyListUnique` says no other list satisfies this.
   */
  method ListReadyActivations(snap: Snapshot, allowed: Option<set<SessionId>>) returns (ready: seq<Activation>)
    requires OnePerSession(snap)
    ensures forall a :: a in ready <==> IsReady(snap, allowed, a)
    ensures DistinctSessions(ready) && InOrder(ready)
  {
    var immediate := ListImmediateActivations(snap, allowed);
    var delayed := ListDelayedActivations(snap, allowed);
    var merged := MergeActivations(immediate, delayed);
    MergeDistinct(immediate, delayed);
    ready := StableSort(merged, RanksNoLater);
    ActivationOrder();
    SortPermutes(merged, RanksNoLater);
    SortSorts(merged, RanksNoLater);
    PermutationDistinct(merged, ready, SessionOfActivation);
  }

  lemma ReadyListUnique(snap: Snapshot, allowed: Option<set<SessionId>>, a: seq<Activation>, b: seq<Activation>)
    requires InOrder(a) && InOrder(b)
    requires forall x :: x in a <==> IsReady(snap, allowed, x)
    requires forall x :: x in b <==> IsReady(snap, allowed, x)
    ensures a == b
  {
    ActivationOrder();
    StrictlySortedUnique(a, b, RanksNoLater);
  }

  /** `a` is ready and not excluded, and every ready activation that stands before it is excluded. */
  ghost predicate IsBest(snap: Snapshot, allowed: Option<set<SessionId>>, excluded: set<SessionId>, a: Activation) {
    && IsReady(snap, allowed, a) && a.sessionId !in excluded
    && forall b :: IsReady(snap, allowed, b) && b.sessionId !in excluded ==> !StandsBefore(b, a)
  }

  /** Whatever its priority, a wake is chosen only when no session outside the excluded ones has events waiting. */
  lemma EventsBeforeWakes(
      snap: Snapshot, allowed: Option<set<SessionId>>, excluded: set<SessionId>, a: Activation, e: RunnableEntry)
    requires IsBest(snap, allowed, excluded, a) && a.kind.QueuedWake?
    requires e in snap.runnable && RunnableNow(snap, allowed, e)
    ensures e.sessionId in excluded
  {
    var k :| 0 <= k < |snap.runnable| && snap.runnable[k] == e;
    assert IsImmediate(snap, allowed, ImmediateOf(snap.runnable[k]));
    assert StandsBefore(ImmediateOf(snap.runnable[k]), a);
  }

  /** Nothing ready is left outside the excluded sessions. */
  ghost predicate Exhausted(snap: Snapshot, allowed: Option<set<SessionId>>, excluded: set<SessionId>) {
    forall a :: IsReady(snap, allowed, a) ==> a.sessionId in excluded
  }

  ghost predicate Chosen(snap: Snapshot, allowed: Option<set<SessionId>>, excluded: set<SessionId>, next: Option<Activation>) {
    if next.Some? then IsBest(snap, allowed, excluded, next.value) else Exhausted(snap, allowed, excluded)
  }

  /** The first listed activation whose session is not excluded. */
  method NextReadyActivation(snap: Snapshot, allowed: Option<set<SessionId>>, excluded: set<SessionId>)
    returns (next: Option<Activation>)
    requires OnePerSession(snap)
    ensures Chosen(snap, allowed, excluded, next)
  {
    var ready := ListReadyActivations(snap, allowed);
    for i := 0 to |ready|
      invariant forall k :: 0 <= k < i ==> ready[k].sessionId in excluded
    {
      if ready[i].sessionId !in excluded {
        forall b | IsReady(snap, allowed, b) && b.sessionId !in excluded ensures !StandsBefore(b, ready[i]) {
          assert b in ready;
          var k :| 0 <= k < |ready| && ready[k] == b;
        }
        assert ready[i] in ready;
        return Some(ready[i]);
      }
    }
    return None;
  }
}
