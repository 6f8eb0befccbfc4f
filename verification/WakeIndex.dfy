/**
 The per-agent index of sessions with pending wakes: one entry per session, ordered by the
 earliest pending due time and then by session.
 */
module WakeIndex {
  import opened Options
  import opened Sorting
  import opened WakeJournal

  datatype Entry = Entry(sessionId: SessionId, nextDueAt: Time)

  predicate EntryLe(a: Entry, b: Entry) {
    a.nextDueAt < b.nextDueAt || (a.nextDueAt == b.nextDueAt && a.sessionId <= b.sessionId)
  }

  function SessionOf(e: Entry): SessionId {
    e.sessionId
  }

  function OtherThan(sessionId: SessionId): Entry -> bool {
    (e: Entry) => e.sessionId != sessionId
  }

  /** The sooner due, or for the same time the lower session. */
  predicate ListedBefore(a: Entry, b: Entry) {
    a.nextDueAt < b.nextDueAt || (a.nextDueAt == b.nextDueAt && a.sessionId < b.sessionId)
  }

  /** `index` is the strictly sorted listing of the map `due`. */
  ghost predicate Describes(index: seq<Entry>, due: map<SessionId, Time>) {
    && (forall i, j :: 0 <= i < j < |index| ==> ListedBefore(index[i], index[j]))
    && (forall e :: e in index ==> e.sessionId in due && due[e.sessionId] == e.nextDueAt)
    && (forall s :: s in due ==> Entry(s, due[s]) in index)
  }

  lemma DescribesUnique(a: seq<Entry>, b: seq<Entry>, due: map<SessionId, Time>)
    requires Describes(a, due) && Describes(b, due)
    ensures a == b
  {
    StrictlySortedUnique(a, b, EntryLe);
  }

  /** The journal of a session; a missing file reads as an empty journal. */
  function JournalOf(journals: map<SessionId, seq<Record>>, s: SessionId): seq<Record> {
    if s in journals then journals[s] else []
  }

  /** What the index must say: each session with a pending wake and its earliest due time. */
  function NextDue(journals: map<SessionId, seq<Record>>): map<SessionId, Time> {
    map s | s in journals && Pending(journals[s]) != [] :: EarliestDue(Pending(journals[s])).value
  }

  function Put(due: map<SessionId, Time>, s: SessionId, next: Option<Time>): map<SessionId, Time> {
    if next.Some? then due[s := next.value] else due - {s}
  }

  function DueOf(journals: map<SessionId, seq<Record>>, s: SessionId): Option<Time> {
    EarliestDue(Pending(JournalOf(journals, s)))
  }

  lemma NextDueEntry(journals: map<SessionId, seq<Record>>, s: SessionId)
    ensures s in NextDue(journals) <==> DueOf(journals, s).Some?
    ensures s in NextDue(journals) ==> NextDue(journals)[s] == DueOf(journals, s).value
  {
    assert Pending([]) == [];
  }

  /** At most the journal of `s` differs. */
  ghost predicate OnlyChanges(a: map<SessionId, seq<Record>>, b: map<SessionId, seq<Record>>, s: SessionId) {
    forall t :: t != s ==> JournalOf(b, t) == JournalOf(a, t)
  }

  lemma NextDueUpdate(a: map<SessionId, seq<Record>>, b: map<SessionId, seq<Record>>, s: SessionId)
    requires OnlyChanges(a, b, s)
    ensures NextDue(b) == Put(NextDue(a), s, DueOf(b, s))
  {
    var x, y := NextDue(b), Put(NextDue(a), s, DueOf(b, s));
    forall t ensures (t in x <==> t in y) && (t in x ==> x[t] == y[t]) {
      NextDueEntry(a, t);
      NextDueEntry(b, t);
      assert t != s ==> JournalOf(b, t) == JournalOf(a, t);
    }
  }

  // ----- deduplication

  /** For each session named by an entry, the earliest due time an entry gives it. */
  function MinDue(entries: seq<Entry>): (due: map<SessionId, Time>)
    ensures forall e :: e in entries ==> e.sessionId in due && due[e.sessionId] <= e.nextDueAt
    ensures forall s :: s in due ==> Entry(s, due[s]) in entries
  {
    if entries == [] then map[]
    else
      var e := entries[|entries| - 1];
      var init := MinDue(entries[..|entries| - 1]);
      assert entries == entries[..|entries| - 1] + [e];
      if e.sessionId !in init || e.nextDueAt < init[e.sessionId] then init[e.sessionId := e.nextDueAt] else init
  }

  /** Keeps a session's place in the map; replaces its entry only by a sooner one. */
  function PutSooner(entries: seq<Entry>, e: Entry): seq<Entry> {
    if entries == [] then [e]
    else if entries[0].sessionId == e.sessionId then
      (if e.nextDueAt < entries[0].nextDueAt then [e] else [entries[0]]) + entries[1..]
    else [entries[0]] + PutSooner(entries[1..], e)
  }

  /** The entries in some order without repeated sessions, saying what `due` says. */
  ghost predicate Lists(entries: seq<Entry>, due: map<SessionId, Time>) {
    && (forall i, j :: 0 <= i < j < |entries| ==> entries[i].sessionId != entries[j].sessionId)
    && (forall e :: e in entries <==> e.sessionId in due && due[e.sessionId] == e.nextDueAt)
  }

  lemma ListsCons(first: Entry, rest: seq<Entry>, due: map<SessionId, Time>)
    requires Lists(rest, due) && first.sessionId !in due
    ensures Lists([first] + rest, due[first.sessionId := first.nextDueAt])
  {
    assert forall k :: 0 <= k < |rest| ==> rest[k] in rest;
    forall e ensures e in [first] + rest <==> e == first || e in rest {}
  }

  lemma ListsTail(entries: seq<Entry>, due: map<SessionId, Time>)
    requires Lists(entries, due) && entries != []
    ensures Lists(entries[1..], due - {entries[0].sessionId})
    ensures entries[0].sessionId in due && due[entries[0].sessionId] == entries[0].nextDueAt
  {
    assert entries[0] in entries;
    assert forall e :: e in entries <==> e == entries[0] || e in entries[1..];
  }

  function MinPut(due: map<SessionId, Time>, e: Entry): map<SessionId, Time> {
    if e.sessionId !in due || e.nextDueAt < due[e.sessionId] then due[e.sessionId := e.nextDueAt] else due
  }

  lemma MinPutTail(due: map<SessionId, Time>, first: Entry, e: Entry)
    requires first.sessionId in due && due[first.sessionId] == first.nextDueAt
    ensures first.sessionId != e.sessionId ==>
              MinPut(due - {first.sessionId}, e)[first.sessionId := first.nextDueAt] == MinPut(due, e)
    ensures first.sessionId == e.sessionId ==>
              var kept := if e.nextDueAt < first.nextDueAt then e else first;
              (due - {first.sessionId})[kept.sessionId := kept.nextDueAt] == MinPut(due, e)
  {
  }

  lemma {:induction false} PutSoonerLists(entries: seq<Entry>, e: Entry, due: map<SessionId, Time>)
    requires Lists(entries, due)
    ensures Lists(PutSooner(entries, e), MinPut(due, e))
  {
    assert forall s :: s in due ==> Entry(s, due[s]) in entries;
    if entries != [] {
      var first := entries[0];
      var rest := due - {first.sessionId};
      ListsTail(entries, due);
      if first.sessionId == e.sessionId {
        var kept := if e.nextDueAt < first.nextDueAt then e else first;
        ListsCons(kept, entries[1..], rest);
        MinPutTail(due, first, e);
      } else {
        PutSoonerLists(entries[1..], e, rest);
        ListsCons(first, PutSooner(entries[1..], e), MinPut(rest, e));
        MinPutTail(due, first, e);
      }
    }
  }

  lemma SortedListDescribes(entries: seq<Entry>, due: map<SessionId, Time>)
    requires Lists(entries, due)
    ensures Describes(StableSort(entries, EntryLe), due)
  {
    var sorted := StableSort(entries, EntryLe);
    SortPermutes(entries, EntryLe);
    SortSorts(entries, EntryLe);
    PermutationDistinct(entries, sorted, SessionOf);
    forall i, j | 0 <= i < j < |sorted| ensures EntryLe(sorted[i], sorted[j]) && !EntryLe(sorted[j], sorted[i]) {
      assert SessionOf(sorted[i]) != SessionOf(sorted[j]);
    }
    forall s | s in due ensures Entry(s, due[s]) in sorted {
      assert Entry(s, due[s]) in entries;
    }
  }

  method DedupePendingWakeEntries(entries: seq<Entry>) returns (unique: seq<Entry>)
    ensures Describes(unique, MinDue(entries))
  {
    var bySession: seq<Entry> := [];
    for n := 0 to |entries|
      invariant Lists(bySession, MinDue(entries[..n]))
    {
      assert entries[..n + 1][..n] == entries[..n];
      PutSoonerLists(bySession, entries[n], MinDue(entries[..n]));
      bySession := PutSooner(bySession, entries[n]);
    }
    assert entries[..|entries|] == entries;
    SortedListDescribes(bySession, MinDue(entries));
    unique := StableSort(bySession, EntryLe);
  }

  // ----- replacing one session's entry

  lemma MinDueOfDescribed(index: seq<Entry>, due: map<SessionId, Time>)
    requires forall e :: e in index ==> e.sessionId in due && due[e.sessionId] == e.nextDueAt
    requires forall s :: s in due ==> Entry(s, due[s]) in index
    ensures MinDue(index) == due
  {
    forall s ensures s in MinDue(index) <==> s in due {
      if s in due {
        assert Entry(s, due[s]) in index;
      }
    }
    forall s | s in due ensures MinDue(index)[s] == due[s] {
      assert Entry(s, MinDue(index)[s]) in index;
    }
  }

  lemma WithoutSession(index: seq<Entry>, due: map<SessionId, Time>, s: SessionId)
    requires Describes(index, due)
    ensures Describes(Filter(index, OtherThan(s)), due - {s})
  {
    FilterStrict(index, OtherThan(s));
  }

  lemma WithSession(index: seq<Entry>, due: map<SessionId, Time>, s: SessionId, d: Time)
    requires Describes(index, due)
    ensures MinDue(Filter(index, OtherThan(s)) + [Entry(s, d)]) == due[s := d]
  {
    var rest := Filter(index, OtherThan(s));
    var all, target := rest + [Entry(s, d)], due[s := d];
    assert all[|rest|] == Entry(s, d);
    forall t: SessionId | t in target ensures Entry(t, target[t]) in all {
      assert t != s ==> Entry(t, due[t]) in rest;
    }
    MinDueOfDescribed(all, target);
  }

  /** The index after one session's entry is replaced; an unchanged listing is not rewritten. */
  method ReplaceEntry(current: seq<Entry>, ghost due: map<SessionId, Time>, s: SessionId, nextDueAt: Option<Time>)
    returns (index: seq<Entry>, rewritten: bool)
    requires Describes(current, due)
    ensures Describes(index, Put(due, s, nextDueAt))
    ensures rewritten <==> Put(due, s, nextDueAt) != due
  {
    var others := Filter(current, OtherThan(s));
    WithoutSession(current, due, s);
    var next := others;
    if nextDueAt.Some? {
      WithSession(current, due, s, nextDueAt.value);
      next := DedupePendingWakeEntries(others + [Entry(s, nextDueAt.value)]);
    }
    MinDueOfDescribed(current, due);
    MinDueOfDescribed(next, Put(due, s, nextDueAt));
    if current == next {
      return current, false;
    }
    if Put(due, s, nextDueAt) == due {
      DescribesUnique(current, next, due);
    }
    index := DedupePendingWakeEntries(next);
    rewritten := true;
  }

  lemma {:induction false} FilterStrict(s: seq<Entry>, p: Entry -> bool)
    requires StrictlySorted(s, EntryLe)
    ensures StrictlySorted(Filter(s, p), EntryLe)
  {
    if s != [] {
      FilterStrict(s[1..], p);
      var t := Filter(s[1..], p);
      forall k | 0 <= k < |t| ensures EntryLe(s[0], t[k]) && !EntryLe(t[k], s[0]) {
        assert t[k] in s[1..];
      }
    }
  }
}
