/**
 The wake queue of one agent: a journal per session and the pending-wake index beside
 them. Each method is one atomic operation here; WakeProtocol splits them into steps.
 */
module SessionWakeQueues {
  import opened Options
  import opened Sorting
  import opened WakeJournal
  import opened WakeIndex

  datatype WakeInput = WakeInput(
    sessionId: SessionId, dueAt: Time, reason: string, note: Option<string>,
    dedupeKey: Option<string>, priority: Priority)

  datatype Batch = Batch(sessionId: SessionId, nextDueAt: Time, dueWakes: seq<Wake>)

  function Minted(id: WakeId, createdAt: Time, input: WakeInput): Wake {
    Wake(id, input.sessionId, createdAt, input.dueAt, input.reason, input.note, input.dedupeKey, input.priority)
  }

  predicate HoldsKey(wake: Wake, key: Option<string>) {
    Truthy(key) && wake.dedupeKey == key
  }

  /** The first pending wake that already holds a non-empty dedupe key. */
  function FindKey(pending: seq<Wake>, key: Option<string>): (r: Option<Wake>)
    ensures r.Some? ==> r.value in pending && HoldsKey(r.value, key)
    ensures r.None? ==> forall w :: w in pending ==> !HoldsKey(w, key)
  {
    if pending == [] then None
    else if HoldsKey(pending[0], key) then Some(pending[0])
    else FindKey(pending[1..], key)
  }

  // ----- what discovery reports

  /** The batch a scan that reads every journal would report for `b.sessionId`. */
  ghost predicate ScansAs(b: Batch, journals: map<SessionId, seq<Record>>, at: Time) {
    && b.dueWakes == DueBy(JournalOf(journals, b.sessionId), at)
    && b.dueWakes != []
    && DueOf(journals, b.sessionId) == Some(b.nextDueAt)
  }

  predicate BatchLe(a: Batch, b: Batch) {
    EntryLe(Entry(a.sessionId, a.nextDueAt), Entry(b.sessionId, b.nextDueAt))
  }

  /** The sooner due, or for the same time the lower session. */
  predicate ReportedBefore(a: Batch, b: Batch) {
    a.nextDueAt < b.nextDueAt || (a.nextDueAt == b.nextDueAt && a.sessionId < b.sessionId)
  }

  /** Exactly the due sessions of all the journals, soonest first. */
  ghost predicate IsFullScan(batches: seq<Batch>, journals: map<SessionId, seq<Record>>, at: Time) {
    && (forall i, j :: 0 <= i < j < |batches| ==> ReportedBefore(batches[i], batches[j]))
    && forall b :: b in batches <==> ScansAs(b, journals, at)
  }

  /** The index after a discovery pass: entries read at `at` are corrected or dropped. */
  function Repaired(due: map<SessionId, Time>, journals: map<SessionId, seq<Record>>, at: Time): map<SessionId, Time> {
    map s | s in due && (due[s] > at || DueOf(journals, s).Some?) ::
      if due[s] > at then due[s] else DueOf(journals, s).value
  }

  lemma BatchWakes(records: seq<Record>, at: Time)
    ensures Filter(StableSort(Pending(records), DueLe), IsDue(at)) == DueBy(records, at)
    ensures forall w :: w in DueBy(records, at) <==> w in Pending(records) && w.dueAt <= at
    ensures DueBy(records, at) != [] <==> EarliestDue(Pending(records)).Some? && EarliestDue(Pending(records)).value <= at
  {
    FilterCommutesWithSort(Pending(records), IsDue(at), DueLe);
    SortPermutes(Filter(Pending(records), IsDue(at)), DueLe);
    var due := DueBy(records, at);
    if due != [] {
      assert due[0] in due;
    }
    if EarliestDue(Pending(records)).Some? && EarliestDue(Pending(records)).value <= at {
      var w :| w in Pending(records) && w.dueAt == EarliestDue(Pending(records)).value;
      assert w in due;
    }
  }

  /** The entries a discovery pass keeps, in index order. */
  function Confirmed(index: seq<Entry>, journals: map<SessionId, seq<Record>>, at: Time): seq<Entry> {
    if index == [] then []
    else
      var e, init := index[|index| - 1], Confirmed(index[..|index| - 1], journals, at);
      var d := if e.nextDueAt > at then Some(e.nextDueAt) else DueOf(journals, e.sessionId);
      if d.Some? then init + [Entry(e.sessionId, d.value)] else init
  }

  /** The batches a discovery pass reports, in index order. */
  function Discovered(index: seq<Entry>, journals: map<SessionId, seq<Record>>, at: Time): seq<Batch> {
    if index == [] then []
    else
      var e, init := index[|index| - 1], Discovered(index[..|index| - 1], journals, at);
      var due := DueBy(JournalOf(journals, e.sessionId), at);
      if e.nextDueAt <= at && due != [] && DueOf(journals, e.sessionId).Some?
      then init + [Batch(e.sessionId, DueOf(journals, e.sessionId).value, due)] else init
  }

  /** The loop of a discovery pass over the index it read. */
  method Discover(current: seq<Entry>, journals: map<SessionId, seq<Record>>, at: Time)
    returns (confirmed: seq<Entry>, batches: seq<Batch>)
    ensures confirmed == Confirmed(current, journals, at)
    ensures batches == Discovered(current, journals, at)
  {
    confirmed, batches := [], [];
    for i := 0 to |current|
      invariant confirmed == Confirmed(current[..i], journals, at)
      invariant batches == Discovered(current[..i], journals, at)
    {
      assert current[..i + 1][..i] == current[..i];
      var entry := current[i];
      if entry.nextDueAt > at {
        confirmed := confirmed + [entry];
        continue;
      }
      var states := FoldRecords(JournalOf(journals, entry.sessionId));
      var pendingWakes := StableSort(PendingOf(states), DueLe);
      SortPermutes(PendingOf(states), DueLe);
      BatchWakes(JournalOf(journals, entry.sessionId), at);
      if |pendingWakes| == 0 {
        continue;
      }
      confirmed := confirmed + [Entry(entry.sessionId, pendingWakes[0].dueAt)];
      var dueWakes := Filter(pendingWakes, IsDue(at));
      if |dueWakes| > 0 {
        batches := batches + [Batch(entry.sessionId, pendingWakes[0].dueAt, dueWakes)];
      }
    }
    assert current[..|current|] == current;
  }

  lemma {:induction false} ConfirmedEntries(index: seq<Entry>, journals: map<SessionId, seq<Record>>, at: Time, x: Entry)
    ensures x in Confirmed(index, journals, at) <==>
              exists e :: e in index && e.sessionId == x.sessionId
                && Some(x.nextDueAt) == if e.nextDueAt > at then Some(e.nextDueAt) else DueOf(journals, e.sessionId)
  {
    if index != [] {
      var n := |index| - 1;
      ConfirmedEntries(index[..n], journals, at, x);
      assert index == index[..n] + [index[n]];
    }
  }

  /** The pass reports `b` on reading entry `e`. */
  ghost predicate Reports(e: Entry, b: Batch, journals: map<SessionId, seq<Record>>, at: Time) {
    e.sessionId == b.sessionId && e.nextDueAt <= at && ScansAs(b, journals, at)
  }

  lemma DiscoveredStep(index: seq<Entry>, journals: map<SessionId, seq<Record>>, at: Time, b: Batch)
    requires index != []
    ensures b in Discovered(index, journals, at) <==>
              b in Discovered(index[..|index| - 1], journals, at) || Reports(index[|index| - 1], b, journals, at)
  {
  }

  lemma {:induction false} DiscoveredIn(index: seq<Entry>, journals: map<SessionId, seq<Record>>, at: Time, b: Batch)
    ensures b in Discovered(index, journals, at) <==> exists e :: e in index && Reports(e, b, journals, at)
  {
    if index != [] {
      var n := |index| - 1;
      DiscoveredIn(index[..n], journals, at, b);
      DiscoveredStep(index, journals, at, b);
      assert forall x :: x in index <==> x in index[..n] || x == index[n];
    }
  }

  lemma ConfirmedDescribes(index: seq<Entry>, due: map<SessionId, Time>, journals: map<SessionId, seq<Record>>, at: Time)
    requires Describes(index, due)
    ensures MinDue(Confirmed(index, journals, at)) == Repaired(due, journals, at)
  {
    var confirmed, target := Confirmed(index, journals, at), Repaired(due, journals, at);
    forall x: Entry ensures x in confirmed ==> x.sessionId in target && target[x.sessionId] == x.nextDueAt {
      ConfirmedEntries(index, journals, at, x);
    }
    forall s: SessionId | s in target ensures Entry(s, target[s]) in confirmed {
      assert Entry(s, due[s]) in index;
      ConfirmedEntries(index, journals, at, Entry(s, target[s]));
    }
    MinDueOfDescribed(confirmed, target);
  }

  lemma RepairedWhenExact(due: map<SessionId, Time>, journals: map<SessionId, seq<Record>>, at: Time)
    requires due == NextDue(journals)
    ensures Repaired(due, journals, at) == due
  {
    forall s ensures s in due ==> DueOf(journals, s) == Some(due[s]) {
      NextDueEntry(journals, s);
    }
  }

  lemma ConfirmedWhenExact(index: seq<Entry>, due: map<SessionId, Time>, journals: map<SessionId, seq<Record>>, at: Time)
    requires Describes(index, due) && due == NextDue(journals)
    ensures forall e :: e in index ==> DueOf(journals, e.sessionId) == Some(e.nextDueAt)
    ensures Confirmed(index, journals, at) == index
  {
    forall e | e in index ensures DueOf(journals, e.sessionId) == Some(e.nextDueAt) {
      NextDueEntry(journals, e.sessionId);
    }
    ConfirmedExact(index, journals, at);
  }

  lemma {:induction false} ConfirmedExact(index: seq<Entry>, journals: map<SessionId, seq<Record>>, at: Time)
    requires forall e :: e in index ==> DueOf(journals, e.sessionId) == Some(e.nextDueAt)
    ensures Confirmed(index, journals, at) == index
  {
    if index != [] {
      var n := |index| - 1;
      assert index == index[..n] + [index[n]];
      ConfirmedExact(index[..n], journals, at);
    }
  }

  lemma DiscoveredBatches(index: seq<Entry>, due: map<SessionId, Time>, journals: map<SessionId, seq<Record>>, at: Time, b: Batch)
    requires Describes(index, due)
    ensures b in Discovered(index, journals, at) <==> b.sessionId in due && due[b.sessionId] <= at && ScansAs(b, journals, at)
  {
    DiscoveredIn(index, journals, at, b);
    if b.sessionId in due {
      assert Entry(b.sessionId, due[b.sessionId]) in index;
    }
  }

  lemma ScannedIsIndexed(b: Batch, journals: map<SessionId, seq<Record>>, at: Time)
    requires ScansAs(b, journals, at)
    ensures b.sessionId in NextDue(journals) && NextDue(journals)[b.sessionId] <= at
  {
    NextDueEntry(journals, b.sessionId);
    BatchWakes(JournalOf(journals, b.sessionId), at);
  }

  lemma DiscoveryIsFullScan(index: seq<Entry>, due: map<SessionId, Time>, journals: map<SessionId, seq<Record>>, at: Time)
    requires Describes(index, due) && due == NextDue(journals)
    ensures IsFullScan(Discovered(index, journals, at), journals, at)
  {
    ConfirmedWhenExact(index, due, journals, at);
    DiscoveredSorted(index, journals, at);
    forall b ensures b in Discovered(index, journals, at) <==> ScansAs(b, journals, at) {
      DiscoveredBatches(index, due, journals, at, b);
      if ScansAs(b, journals, at) {
        ScannedIsIndexed(b, journals, at);
      }
    }
  }

  lemma {:induction false} DiscoveredSorted(index: seq<Entry>, journals: map<SessionId, seq<Record>>, at: Time)
    requires StrictlySorted(index, EntryLe)
    requires forall e :: e in index ==> DueOf(journals, e.sessionId) == Some(e.nextDueAt)
    ensures StrictlySorted(Discovered(index, journals, at), BatchLe)
  {
    if index != [] {
      var n := |index| - 1;
      DiscoveredSorted(index[..n], journals, at);
      var found, all := Discovered(index[..n], journals, at), Discovered(index, journals, at);
      if all != found {
        assert all == found + [all[|found|]] && DueOf(journals, index[n].sessionId) == Some(index[n].nextDueAt);
        forall k | 0 <= k < |found| ensures BatchLe(found[k], all[|found|]) && !BatchLe(all[|found|], found[k]) {
          DiscoveredBefore(index, journals, at, found[k]);
        }
        StrictlySortedAppend(found, all[|found|], BatchLe);
      }
    }
  }

  lemma DiscoveredBefore(index: seq<Entry>, journals: map<SessionId, seq<Record>>, at: Time, b: Batch)
    requires index != [] && StrictlySorted(index, EntryLe)
    requires forall e :: e in index ==> DueOf(journals, e.sessionId) == Some(e.nextDueAt)
    requires b in Discovered(index[..|index| - 1], journals, at)
    ensures EntryLe(Entry(b.sessionId, b.nextDueAt), index[|index| - 1])
         && !EntryLe(index[|index| - 1], Entry(b.sessionId, b.nextDueAt))
  {
    var n := |index| - 1;
    DiscoveredIn(index[..n], journals, at, b);
    var e :| e in index[..n] && e.sessionId == b.sessionId && e.nextDueAt <= at && ScansAs(b, journals, at);
    var i :| 0 <= i < n && index[i] == e;
    assert e in index;
  }

  predicate Allowed(s: SessionId, allowed: Option<set<SessionId>>)
    ensures Allowed(s, allowed) <==> (allowed.Some? ==> s in allowed.value)
  {
    allowed.None? || s in allowed.value
  }

  /** The least due time among the pending wakes of the allowed sessions. */
  ghost predicate IsNextDue(next: Time, journals: map<SessionId, seq<Record>>, allowed: Option<set<SessionId>>) {
    && (exists s :: Allowed(s, allowed) && DueOf(journals, s) == Some(next))
    && (forall s :: Allowed(s, allowed) && DueOf(journals, s).Some? ==> next <= DueOf(journals, s).value)
  }

  lemma EarliestEntry(
      index: seq<Entry>, due: map<SessionId, Time>, journals: map<SessionId, seq<Record>>,
      allowed: Option<set<SessionId>>, i: nat)
    requires Describes(index, due) && due == NextDue(journals)
    requires i < |index| && Allowed(index[i].sessionId, allowed)
    requires forall k :: 0 <= k < i ==> !Allowed(index[k].sessionId, allowed)
    ensures IsNextDue(index[i].nextDueAt, journals, allowed)
  {
    var e := index[i];
    assert e in index;
    NextDueEntry(journals, e.sessionId);
    forall s | Allowed(s, allowed) && DueOf(journals, s).Some? ensures e.nextDueAt <= DueOf(journals, s).value {
      NextDueEntry(journals, s);
      assert Entry(s, due[s]) in index;
      var k :| 0 <= k < |index| && index[k] == Entry(s, due[s]);
      assert i <= k;
      assert i < k ==> EntryLe(e, index[k]);
    }
  }

  /** The position of the first entry for an allowed session. */
  function FirstAllowed(entries: seq<Entry>, allowed: Option<set<SessionId>>): (i: nat)
    ensures i <= |entries| && (i < |entries| ==> Allowed(entries[i].sessionId, allowed))
    ensures forall k :: 0 <= k < i ==> !Allowed(entries[k].sessionId, allowed)
  {
    if entries == [] || Allowed(entries[0].sessionId, allowed) then 0 else 1 + FirstAllowed(entries[1..], allowed)
  }

  /** The first allowed entry of the sorted index is the least over the allowed sessions. */
  lemma FirstAllowedIsLeast(index: seq<Entry>, due: map<SessionId, Time>, allowed: Option<set<SessionId>>, i: nat)
    requires Describes(index, due) && i <= |index|
    requires forall k :: 0 <= k < i ==> !Allowed(index[k].sessionId, allowed)
    ensures forall s :: s in due && Allowed(s, allowed) ==> i < |index| && index[i].nextDueAt <= due[s]
  {
    forall s | s in due && Allowed(s, allowed) ensures i < |index| && index[i].nextDueAt <= due[s] {
      assert Entry(s, due[s]) in index;
      var k :| 0 <= k < |index| && index[k] == Entry(s, due[s]);
      assert i < k ==> EntryLe(index[i], index[k]);
    }
  }

  lemma NoAllowedEntry(
      index: seq<Entry>, due: map<SessionId, Time>, journals: map<SessionId, seq<Record>>, allowed: Option<set<SessionId>>)
    requires Describes(index, due) && due == NextDue(journals)
    requires forall k :: 0 <= k < |index| ==> !Allowed(index[k].sessionId, allowed)
    ensures forall s :: Allowed(s, allowed) ==> DueOf(journals, s).None?
  {
    forall s ensures DueOf(journals, s).Some? ==> !Allowed(s, allowed) {
      NextDueEntry(journals, s);
    }
  }

  /** What one pass over the index establishes, with an exact index or a stale one. */
  lemma DiscoveryPass(index: seq<Entry>, due: map<SessionId, Time>, journals: map<SessionId, seq<Record>>, at: Time)
    requires Describes(index, due)
    ensures MinDue(Confirmed(index, journals, at)) == Repaired(due, journals, at)
    ensures Confirmed(index, journals, at) == index ==> Repaired(due, journals, at) == due
    ensures forall b :: b in Discovered(index, journals, at)
              <==> b.sessionId in due && due[b.sessionId] <= at && ScansAs(b, journals, at)
    ensures due == NextDue(journals) ==>
              && Repaired(due, journals, at) == due && Confirmed(index, journals, at) == index
              && IsFullScan(Discovered(index, journals, at), journals, at)
  {
    ConfirmedDescribes(index, due, journals, at);
    MinDueOfDescribed(index, due);
    forall b ensures b in Discovered(index, journals, at)
                <==> b.sessionId in due && due[b.sessionId] <= at && ScansAs(b, journals, at) {
      DiscoveredBatches(index, due, journals, at, b);
    }
    if due == NextDue(journals) {
      RepairedWhenExact(due, journals, at);
      ConfirmedWhenExact(index, due, journals, at);
      DiscoveryIsFullScan(index, due, journals, at);
    }
  }

  // ----- what every operation keeps

  /** One session's journal names only wakes minted for it, holds each key once, and reopens no retired id. */
  ghost predicate JournalSound(records: seq<Record>, s: SessionId, minted: map<WakeId, Wake>, retired: set<WakeId>) {
    && (forall w :: w in EnqueuedWakes(records) ==> w.sessionId == s && w.id in minted && minted[w.id] == w)
    && UniqueKeys(Pending(records))
    && (forall w :: w in Pending(records) ==> w.id !in retired)
  }

  /** Facts about journals, minted wakes and handed-out ids that every operation keeps. */
  ghost predicate Sound(
      journals: map<SessionId, seq<Record>>, minted: map<WakeId, Wake>, nextId: nat, retired: set<WakeId>)
  {
    && (forall id :: id in minted ==> id < nextId && minted[id].id == id)
    && (forall id :: id in retired ==> id < nextId)
    && (forall s :: JournalSound(JournalOf(journals, s), s, minted, retired))
  }

  lemma EnqueueKeepsJournalSound(records: seq<Record>, minted: map<WakeId, Wake>, retired: set<WakeId>, wake: Wake)
    requires JournalSound(records, wake.sessionId, minted, retired)
    requires wake.id !in minted && wake.id !in retired
    requires forall v :: v in Pending(records) ==> !HoldsKey(v, wake.dedupeKey)
    ensures JournalSound(records + [Enqueued(wake)], wake.sessionId, minted[wake.id := wake], retired)
    ensures Pending(records + [Enqueued(wake)]) == Pending(records) + [wake]
  {
    EnqueuedWakesAppend(records, wake);
    PendingAfterEnqueue(records, wake);
    var pending := Pending(records);
    forall i | 0 <= i < |pending| && Truthy(pending[i].dedupeKey)
      ensures pending[i].dedupeKey != wake.dedupeKey
    {
      assert !HoldsKey(pending[i], wake.dedupeKey);
    }
  }

  lemma EnqueueKeepsSound(
      before: map<SessionId, seq<Record>>, after: map<SessionId, seq<Record>>,
      minted: map<WakeId, Wake>, retired: set<WakeId>, wake: Wake)
    requires Sound(before, minted, wake.id, retired)
    requires JournalOf(after, wake.sessionId) == JournalOf(before, wake.sessionId) + [Enqueued(wake)]
    requires OnlyChanges(before, after, wake.sessionId)
    requires forall v :: v in Pending(JournalOf(before, wake.sessionId)) ==> !HoldsKey(v, wake.dedupeKey)
    ensures Sound(after, minted[wake.id := wake], wake.id + 1, retired)
    ensures Pending(JournalOf(after, wake.sessionId)) == Pending(JournalOf(before, wake.sessionId)) + [wake]
  {
    EnqueueKeepsJournalSound(JournalOf(before, wake.sessionId), minted, retired, wake);
    forall t ensures JournalSound(JournalOf(after, t), t, minted[wake.id := wake], retired) {
      assert JournalSound(JournalOf(before, t), t, minted, retired);
    }
  }

  lemma CompletionsKeepSound(
      before: map<SessionId, seq<Record>>, after: map<SessionId, seq<Record>>,
      minted: map<WakeId, Wake>, nextId: nat, retired: set<WakeId>,
      s: SessionId, wakes: seq<Wake>, at: Time)
    requires Sound(before, minted, nextId, retired)
    requires JournalOf(after, s) == JournalOf(before, s) + Completions(wakes, at)
    requires OnlyChanges(before, after, s)
    ensures Sound(after, minted, nextId, retired)
    ensures Pending(JournalOf(after, s)) == Filter(Pending(JournalOf(before, s)), Outside(Ids(wakes)))
  {
    var j := JournalOf(before, s);
    PendingAfterCompletions(j, wakes, at);
    FilterKeepsUniqueKeys(Pending(j), Outside(Ids(wakes)));
    CompletionsEnqueueNothing(j, wakes, at);
    forall t ensures JournalSound(JournalOf(after, t), t, minted, retired) {
      assert JournalSound(JournalOf(before, t), t, minted, retired);
    }
  }

  /** Ids taken from pending wakes and then completed can be retired: no journal still has them open. */
  lemma RetireKeepsSound(
      before: map<SessionId, seq<Record>>, after: map<SessionId, seq<Record>>,
      minted: map<WakeId, Wake>, nextId: nat, retired: set<WakeId>, s: SessionId, wakes: seq<Wake>)
    requires Sound(before, minted, nextId, retired) && Sound(after, minted, nextId, retired)
    requires OnlyChanges(before, after, s)
    requires Pending(JournalOf(after, s)) == Filter(Pending(JournalOf(before, s)), Outside(Ids(wakes)))
    requires forall w :: w in wakes ==> w in Pending(JournalOf(before, s))
    ensures Ids(wakes) !! retired
    ensures Sound(after, minted, nextId, retired + Ids(wakes))
  {
    PendingWasEnqueued(JournalOf(before, s));
    assert JournalSound(JournalOf(before, s), s, minted, retired);
    forall t ensures JournalSound(JournalOf(after, t), t, minted, retired + Ids(wakes)) {
      PendingWasEnqueued(JournalOf(after, t));
      assert JournalSound(JournalOf(after, t), t, minted, retired);
    }
  }

  lemma {:induction false} FilterKeepsUniqueKeys(pending: seq<Wake>, p: Wake -> bool)
    ensures UniqueKeys(pending) ==> UniqueKeys(Filter(pending, p))
  {
    if pending != [] && UniqueKeys(pending) {
      FilterKeepsUniqueKeys(pending[1..], p);
      var rest := Filter(pending[1..], p);
      forall k | 0 <= k < |rest| && Truthy(pending[0].dedupeKey)
        ensures rest[k].dedupeKey != pending[0].dedupeKey
      {
        assert rest[k] in pending[1..];
      }
    }
  }

  // ----- an enqueue as a function of journals and ids

  datatype QueueState = QueueState(journals: map<SessionId, seq<Record>>, nextId: nat)

  /** No pending wake of the session holds the input's non-empty key, so an enqueue appends. */
  predicate Appends(st: QueueState, input: WakeInput) {
    FindKey(Pending(JournalOf(st.journals, input.sessionId)), input.dedupeKey).None?
  }

  /** The journals and ids after one enqueue, whether or not it then obtains the index lock. */
  function EnqueueInto(st: QueueState, input: WakeInput, now: Time): QueueState {
    var journal := JournalOf(st.journals, input.sessionId);
    QueueState(
      if Appends(st, input) then st.journals[input.sessionId := journal + [Enqueued(Minted(st.nextId, now, input))]]
      else st.journals,
      st.nextId + 1)
  }

  /** The journals after the completed records of `wakes`. */
  function AfterCompletions(journals: map<SessionId, seq<Record>>, s: SessionId, wakes: seq<Wake>, at: Time): map<SessionId, seq<Record>> {
    if wakes == [] then journals else journals[s := JournalOf(journals, s) + Completions(wakes, at)]
  }

  lemma AfterCompletionsNext(journals: map<SessionId, seq<Record>>, s: SessionId, wakes: seq<Wake>, i: nat, at: Time)
    requires i < |wakes|
    ensures
      var before := AfterCompletions(journals, s, wakes[..i], at);
      AfterCompletions(journals, s, wakes[..i + 1], at) == before[s := JournalOf(before, s) + [Completed(wakes[i].id, at)]]
  {
    assert wakes[..i + 1][..i] == wakes[..i];
    var done, last := Completions(wakes[..i], at), [Completed(wakes[i].id, at)];
    assert JournalOf(journals, s) + (done + last) == (JournalOf(journals, s) + done) + last;
    assert i == 0 ==> done + last == last;
  }

  class SessionWakeQueue {
    var journals: map<SessionId, seq<Record>>
    var index: seq<Entry>
    var nextId: nat

    ghost var minted: map<WakeId, Wake>      // every wake ever given an id
    ghost var indexed: map<SessionId, Time>  // what the index says
    ghost var retired: set<WakeId>           // ids handed out by consumeDue or cancelPending

    ghost predicate Valid()
      reads this
    {
      Describes(index, indexed) && Sound(journals, minted, nextId, retired)
    }

    /** The index is exactly the sorted list of (session, earliest pending due). */
    ghost predicate Exact()
      reads this
    {
      indexed == NextDue(journals)
    }

    function Journal(s: SessionId): seq<Record>
      reads this
    {
      JournalOf(journals, s)
    }

    constructor ()
      ensures Valid() && Exact() && journals == map[] && index == []
    {
      journals, index, nextId := map[], [], 0;
      minted, indexed, retired := map[], map[], {};
    }

    /** Rewrites one session's index entry from `known`, or from its journal when absent. */
    method SyncPendingWakeSessionIndex(s: SessionId, known: Option<seq<WakeState>>)
      requires Valid()
      modifies `index, `indexed
      ensures Valid()
      ensures indexed == Put(old(indexed), s,
                EarliestDue(if known.Some? then PendingOf(known.value) else Pending(Journal(s))))
    {
      var states;
      if known.Some? {
        states := known.value;
      } else {
        states := FoldRecords(Journal(s));
      }
      var nextDueAt := EarliestDue(PendingOf(states));
      var next, rewritten := ReplaceEntry(index, indexed, s, nextDueAt);
      index := next;
      indexed := Put(indexed, s, nextDueAt);
    }

    function State(): QueueState
      reads this
    {
      QueueState(journals, nextId)
    }

    /**
     A held key returns its holder. Otherwise the wake is appended, and the call throws when it
     then does not obtain the index lock in time: the wake is pending and the index is as it was.
     */
    method Enqueue(input: WakeInput, now: Time, lockTimesOut: bool) returns (wake: Wake, threw: bool)
      requires Valid()
      modifies this
      ensures Valid() && (old(Exact()) && !threw ==> Exact()) && retired == old(retired)
      ensures State() == EnqueueInto(old(State()), input, now)
      ensures threw <==> lockTimesOut && Appends(old(State()), input)
      ensures OnlyChanges(old(journals), journals, input.sessionId)
      ensures (exists v :: v in old(Pending(Journal(input.sessionId))) && HoldsKey(v, input.dedupeKey)) ==>
                && wake in old(Pending(Journal(input.sessionId))) && HoldsKey(wake, input.dedupeKey)
                && journals == old(journals) && index == old(index) && !threw
      ensures (forall v :: v in old(Pending(Journal(input.sessionId))) ==> !HoldsKey(v, input.dedupeKey)) ==>
                && wake == Minted(old(nextId), now, input)
                && Journal(input.sessionId) == old(Journal(input.sessionId)) + [Enqueued(wake)]
                && Pending(Journal(input.sessionId)) == old(Pending(Journal(input.sessionId))) + [wake]
                && threw == lockTimesOut && (threw ==> index == old(index))
    {
      wake, threw := Minted(nextId, now, input), false;
      nextId := nextId + 1;
      var states := FoldRecords(Journal(input.sessionId));
      var existing := FindKey(PendingOf(states), wake.dedupeKey);
      if existing.Some? {
        wake := existing.value;
        return;
      }
      threw := AppendWake(wake, states, lockTimesOut);
    }

    /** The append of a wake that is not a duplicate, and the index update from the states read before it. */
    method AppendWake(wake: Wake, states: seq<WakeState>, lockTimesOut: bool) returns (threw: bool)
      requires Describes(index, indexed) && Sound(journals, minted, wake.id, retired) && nextId == wake.id + 1
      requires states == Fold(Journal(wake.sessionId))
      requires forall v :: v in Pending(Journal(wake.sessionId)) ==> !HoldsKey(v, wake.dedupeKey)
      modifies `journals, `index, `indexed, `minted
      ensures Valid() && threw == lockTimesOut
      ensures if threw then index == old(index) else (old(Exact()) ==> Exact())
      ensures journals == old(journals)[wake.sessionId := old(Journal(wake.sessionId)) + [Enqueued(wake)]]
      ensures OnlyChanges(old(journals), journals, wake.sessionId)
      ensures Pending(Journal(wake.sessionId)) == old(Pending(Journal(wake.sessionId))) + [wake]
    {
      AppendRecord(wake.sessionId, Enqueued(wake));
      minted := minted[wake.id := wake];
      EnqueueKeepsSound(old(journals), journals, old(minted), retired, wake);
      if lockTimesOut {
        return true;
      }
      NextDueUpdate(old(journals), journals, wake.sessionId);
      FoldLast(old(Journal(wake.sessionId)), Enqueued(wake));
      SyncPendingWakeSessionIndex(wake.sessionId, Some(SetState(states, WakeState(wake, None))));
      return false;
    }

    method AppendRecord(s: SessionId, r: Record)
      modifies `journals
      ensures journals == old(journals)[s := old(Journal(s)) + [r]]
      ensures Journal(s) == old(Journal(s)) + [r]
      ensures OnlyChanges(old(journals), journals, s)
    {
      journals := journals[s := JournalOf(journals, s) + [r]];
    }

    /** The appends shared by the consuming operations, one completed record per wake. */
    method AppendCompletions(s: SessionId, wakes: seq<Wake>, at: Time)
      modifies `journals
      ensures journals == AfterCompletions(old(journals), s, wakes, at)
      ensures Journal(s) == old(Journal(s)) + Completions(wakes, at)
      ensures OnlyChanges(old(journals), journals, s)
    {
      for i := 0 to |wakes|
        invariant journals == AfterCompletions(old(journals), s, wakes[..i], at)
      {
        AfterCompletionsNext(old(journals), s, wakes, i, at);
        AppendRecord(s, Completed(wakes[i].id, at));
      }
      assert wakes[..|wakes|] == wakes;
      assert wakes == [] ==> old(Journal(s)) + [] == old(Journal(s));
    }

    /** Exactly the pending wakes due by `at`, soonest first and otherwise in journal order. */
    method ListPending(s: SessionId, at: Time) returns (wakes: seq<Wake>)
      ensures forall w :: w in wakes <==> w in Pending(Journal(s)) && w.dueAt <= at
      ensures SoonestFirst(wakes) && DistinctWakes(wakes)
      ensures wakes == DueBy(Journal(s), at)
    {
      BatchWakes(Journal(s), at);
      DueByDistinct(Journal(s), at);
      SortSorts(Filter(Pending(Journal(s)), IsDue(at)), DueLe);
      var states := FoldRecords(Journal(s));
      wakes := StableSort(Filter(PendingOf(states), IsDue(at)), DueLe);
    }

    /** Completes `wakes` in the journal and rewrites the index entry, as every consumer does. */
    method Complete(s: SessionId, wakes: seq<Wake>, at: Time)
      requires Valid()
      modifies `journals, `index, `indexed
      ensures Valid() && (old(Exact()) ==> Exact())
      ensures journals == AfterCompletions(old(journals), s, wakes, at)
      ensures OnlyChanges(old(journals), journals, s)
      ensures Pending(Journal(s)) == Filter(old(Pending(Journal(s))), Outside(Ids(wakes)))
    {
      AppendCompletions(s, wakes, at);
      CompletionsKeepSound(old(journals), journals, minted, nextId, retired, s, wakes, at);
      NextDueUpdate(old(journals), journals, s);
      SyncPendingWakeSessionIndex(s, None);
    }

    /**
     Hands out the wakes due by `at`, never one that was handed out before, and leaves
     every later one pending.
     */
    method ConsumeDue(s: SessionId, at: Time) returns (wakes: seq<Wake>)
      requires Valid()
      modifies `journals, `index, `indexed, `retired
      ensures Valid() && (old(Exact()) ==> Exact())
      ensures wakes == DueBy(old(Journal(s)), at) && journals == AfterCompletions(old(journals), s, wakes, at)
      ensures Ids(wakes) !! old(retired) && retired == old(retired) + Ids(wakes)
      ensures Pending(Journal(s)) == Filter(old(Pending(Journal(s))), Outside(Ids(wakes)))
      ensures forall w :: w in Pending(Journal(s)) <==> w in old(Pending(Journal(s))) && w.dueAt > at
      ensures OnlyChanges(old(journals), journals, s)
    {
      wakes := ListPending(s, at);
      BatchWakes(Journal(s), at);
      Retire(s, wakes, at);
      forall w | w in old(Pending(Journal(s))) && w.dueAt > at ensures w.id !in Ids(wakes) {
        PendingWasEnqueued(old(Journal(s)));
      }
    }

    /** Hands out every pending wake of the session. */
    method CancelPending(s: SessionId, at: Time) returns (wakes: seq<Wake>)
      requires Valid()
      modifies `journals, `index, `indexed, `retired
      ensures Valid() && (old(Exact()) ==> Exact())
      ensures wakes == StableSort(old(Pending(Journal(s))), DueLe) && journals == AfterCompletions(old(journals), s, wakes, at)
      ensures forall w :: w in wakes <==> w in old(Pending(Journal(s)))
      ensures Ids(wakes) !! old(retired) && retired == old(retired) + Ids(wakes)
      ensures Pending(Journal(s)) == [] && OnlyChanges(old(journals), journals, s)
    {
      var states := FoldRecords(Journal(s));
      wakes := StableSort(PendingOf(states), DueLe);
      SortPermutes(PendingOf(states), DueLe);
      Retire(s, wakes, at);
      FilterNone(old(Pending(Journal(s))), Outside(Ids(wakes)));
    }

    method Retire(s: SessionId, wakes: seq<Wake>, at: Time)
      requires Valid()
      requires forall w :: w in wakes ==> w in Pending(Journal(s))
      modifies `journals, `index, `indexed, `retired
      ensures Valid() && (old(Exact()) ==> Exact())
      ensures Ids(wakes) !! old(retired) && retired == old(retired) + Ids(wakes)
      ensures Pending(Journal(s)) == Filter(old(Pending(Journal(s))), Outside(Ids(wakes)))
      ensures OnlyChanges(old(journals), journals, s)
      ensures journals == AfterCompletions(old(journals), s, wakes, at)
    {
      if |wakes| > 0 {
        Complete(s, wakes, at);
      } else {
        FilterAll(Pending(Journal(s)), Outside(Ids(wakes)));
      }
      RetireKeepsSound(old(journals), journals, minted, nextId, retired, s, wakes);
      retired := retired + Ids(wakes);
    }

    /** Completes wakes the caller already holds; it does not check that they are pending. */
    method ConsumeKnown(s: SessionId, wakes: seq<Wake>, at: Time) returns (unique: seq<Wake>)
      requires Valid()
      modifies `journals, `index, `indexed
      ensures Valid() && (old(Exact()) ==> Exact())
      ensures forall w :: w in unique <==> GivenLast(wakes, w)
      ensures DistinctWakes(unique) && Ids(unique) == Ids(wakes) && SoonestFirst(unique)
      ensures journals == AfterCompletions(old(journals), s, unique, at)
      ensures Pending(Journal(s)) == Filter(old(Pending(Journal(s))), Outside(Ids(wakes)))
      ensures OnlyChanges(old(journals), journals, s)
    {
      unique := DedupeWakeList(wakes);
      if |unique| == 0 {
        FilterAll(Pending(Journal(s)), Outside(Ids(wakes)));
        return;
      }
      Complete(s, unique, at);
    }

    /**
     A consuming operation whose index lock was not obtained in time: the completed records
     are in the journal and the call throws before the index is rewritten.
     */
    method ConsumeUnsynced(s: SessionId, wakes: seq<Wake>, at: Time)
      requires Valid()
      modifies `journals
      ensures Valid() && journals == AfterCompletions(old(journals), s, wakes, at)
      ensures Pending(Journal(s)) == Filter(old(Pending(Journal(s))), Outside(Ids(wakes)))
      ensures OnlyChanges(old(journals), journals, s)
    {
      AppendCompletions(s, wakes, at);
      CompletionsKeepSound(old(journals), journals, minted, nextId, retired, s, wakes, at);
    }

    /**
     Read from the index alone: the earliest indexed time over the allowed sessions, which with
     an exact index is the earliest due time of their journals.
     */
    method PeekNextDueAt(allowed: Option<set<SessionId>>) returns (next: Option<Time>)
      requires Valid()
      ensures next.None? ==> forall s :: s in indexed ==> !Allowed(s, allowed)
      ensures next.Some? ==> exists s :: s in indexed && Allowed(s, allowed) && indexed[s] == next.value
      ensures next.Some? ==> forall s :: s in indexed && Allowed(s, allowed) ==> next.value <= indexed[s]
      ensures Exact() && next.None? ==> forall s :: Allowed(s, allowed) ==> DueOf(journals, s).None?
      ensures Exact() && next.Some? ==> IsNextDue(next.value, journals, allowed)
    {
      var i := FirstAllowed(index, allowed);
      FirstAllowedIsLeast(index, indexed, allowed, i);
      if i < |index| {
        if Exact() {
          EarliestEntry(index, indexed, journals, allowed, i);
        }
        return Some(index[i].nextDueAt);
      }
      if Exact() {
        NoAllowedEntry(index, indexed, journals, allowed);
      }
      return None;
    }

    /**
     Discovery through the index. Entries later than `at` are trusted; the others are read,
     corrected or dropped. With an exact index it reports what a scan of every journal would
     and rewrites nothing.
     */
    method ListDueSessionWakes(at: Time) returns (batches: seq<Batch>, rewritten: bool)
      requires Valid()
      modifies `index, `indexed
      ensures Valid()
      ensures indexed == Repaired(old(indexed), journals, at)
      ensures !rewritten ==> index == old(index)
      ensures forall b :: b in batches <==> b.sessionId in old(indexed) && old(indexed)[b.sessionId] <= at && ScansAs(b, journals, at)
      ensures old(Exact()) ==> Exact() && !rewritten && IsFullScan(batches, journals, at)
    {
      var confirmed;
      confirmed, batches := Discover(index, journals, at);
      DiscoveryPass(index, indexed, journals, at);
      rewritten := index != confirmed;
      if rewritten {
        index := DedupePendingWakeEntries(confirmed);
      }
      indexed := Repaired(indexed, journals, at);
    }
  }
}
