/**
 When the interleaved queue does keep its index exact and its dedupe keys unique: calls on
 different sessions and discovery passes may interleave freely, but one session has at most
 one enqueue or consuming call under way, and none of them is stopped by the index lock after
 it has appended.
 */
module WakeSerial {
  import opened Options
  import opened Sorting
  import opened WakeJournal
  import opened WakeIndex
  import opened SessionWakeQueues
  import opened WakeProtocol

  /** An enqueue or consuming call on `s` that has neither returned nor thrown. */
  predicate Active(p: Proc, s: SessionId) {
    match p
    case EnqStarted(wake) => wake.sessionId == s
    case EnqRead(wake, _) => wake.sessionId == s
    case EnqAppended(wake, _) => wake.sessionId == s
    case EnqLocked(wake, _, _) => wake.sessionId == s
    case TakeStarted(t, _) => t == s
    case TakeAppending(t, _, _) => t == s
    case TakeLocked(t, _) => t == s
    case TakeReady(t, _, _) => t == s
    case _ => false
  }

  /** A call on `s` that may have appended and has not updated the index. */
  predicate Dirty(p: Proc, s: SessionId) {
    Active(p, s) && !p.EnqStarted? && !p.EnqRead? && !p.TakeStarted?
  }

  ghost predicate Serial(st: State) {
    forall s, p, q :: p in st.procs && q in st.procs && Active(st.procs[p], s) && Active(st.procs[q], s) ==> p == q
  }

  ghost predicate Idle(st: State, s: SessionId) {
    forall pid :: pid in st.procs ==> !Active(st.procs[pid], s)
  }

  ghost predicate Clean(st: State, s: SessionId) {
    forall pid :: pid in st.procs ==> !Dirty(st.procs[pid], s)
  }

  /** No enqueued record of the journal has the id. */
  predicate FreshId(records: seq<Record>, id: WakeId) {
    forall w :: w in EnqueuedWakes(records) ==> w.id != id
  }

  /** A new enqueue brings an id its session has not used; the lock stops no call that has appended. */
  predicate Permitted(st: State, a: Action) {
    match a
    case Spawn(_, start) => start.EnqStarted? ==> FreshId(JournalOf(st.journals, start.wake.sessionId), start.wake.id)
    case TimeOut(pid) => pid in st.procs ==> !st.procs[pid].EnqAppended? && !(st.procs[pid].TakeAppending? && st.procs[pid].todo == [])
    case Advance(_, _) => true
  }

  /** A run in which every step is permitted and every state serial. */
  ghost predicate Orderly(actions: seq<Action>) {
    actions == [] ||
    (var before := actions[..|actions| - 1];
     Orderly(before) && Permitted(Run(before), actions[|actions| - 1]) && Serial(Run(actions)))
  }

  // ----- the invariant, one session at a time

  function EntryFor(index: Index, s: SessionId): Option<Time> {
    if s in index then Some(index[s]) else None
  }

  /** A discovery pass under way still holds, or has confirmed, what the index must say of `s`. */
  predicate ScanAgrees(left: Index, confirmed: Index, s: SessionId, due: Option<Time>) {
    if s in left then due == Some(left[s]) else EntryFor(confirmed, s) == due
  }

  ghost predicate ProcSerial(st: State, s: SessionId, p: Proc) {
    var journal := JournalOf(st.journals, s);
    match p
    case EnqStarted(wake) => wake.sessionId == s ==> FreshId(journal, wake.id)
    case EnqRead(wake, known) => wake.sessionId == s ==>
      && FreshId(journal, wake.id) && known == Fold(journal)
      && forall v :: v in Pending(journal) ==> !HoldsKey(v, wake.dedupeKey)
    case EnqAppended(wake, known) => wake.sessionId == s ==> SetState(known, WakeState(wake, None)) == Fold(journal)
    case EnqLocked(wake, known, _) => wake.sessionId == s ==> SetState(known, WakeState(wake, None)) == Fold(journal)
    case TakeReady(t, _, next) => t == s ==> next == DueOf(st.journals, s)
    case ListScanning(_, left, confirmed, _) => Clean(st, s) ==> ScanAgrees(left, confirmed, s, DueOf(st.journals, s))
    case _ => true
  }

  ghost predicate SessionOk(st: State, s: SessionId) {
    && UniqueKeys(Pending(JournalOf(st.journals, s)))
    && (Clean(st, s) ==> EntryFor(st.index, s) == DueOf(st.journals, s))
    && forall pid :: pid in st.procs ==> ProcSerial(st, s, st.procs[pid])
  }

  /** A step of `pid` that leaves the session's journal and entry alone, unless the session is dirty after it. */
  lemma KeepSession(st: State, b: State, pid: Pid, s: SessionId)
    requires SessionOk(st, s) && pid in b.procs && b.procs == st.procs[pid := b.procs[pid]]
    requires JournalOf(b.journals, s) == JournalOf(st.journals, s)
    requires Clean(b, s) ==> Clean(st, s) && EntryFor(b.index, s) == EntryFor(st.index, s)
    requires ProcSerial(b, s, b.procs[pid])
    ensures SessionOk(b, s)
  {
    forall q | q in b.procs ensures ProcSerial(b, s, b.procs[q]) {
      if q != pid {
        assert ProcSerial(st, s, st.procs[q]);
      }
    }
  }

  /** A step that neither starts, ends nor dirties a call keeps a session clean or not. */
  lemma CleanBefore(st: State, b: State, pid: Pid, s: SessionId)
    requires pid in b.procs && b.procs == st.procs[pid := b.procs[pid]]
    requires pid in st.procs ==> !Dirty(st.procs[pid], s)
    ensures Clean(b, s) ==> Clean(st, s)
  {
    if Clean(b, s) {
      forall q | q in st.procs ensures !Dirty(st.procs[q], s) {
        if q != pid {
          assert !Dirty(b.procs[q], s);
        }
      }
    }
  }

  /** An append to the session's own journal by its only active call, which is dirty afterwards. */
  lemma AppendOwn(st: State, b: State, pid: Pid, s: SessionId)
    requires SessionOk(st, s) && Serial(st) && pid in st.procs && Active(st.procs[pid], s)
    requires pid in b.procs && b.procs == st.procs[pid := b.procs[pid]] && Dirty(b.procs[pid], s)
    requires UniqueKeys(Pending(JournalOf(b.journals, s))) && ProcSerial(b, s, b.procs[pid])
    ensures SessionOk(b, s)
  {
    assert !Clean(b, s);
    forall q | q in b.procs ensures ProcSerial(b, s, b.procs[q]) {
      if q != pid {
        assert !Active(st.procs[q], s);
      }
    }
  }

  /** The lock holder on `s` writes its entry: no discovery pass is under way. */
  lemma WriteOwn(st: State, b: State, pid: Pid, s: SessionId)
    requires Inv(st) && SessionOk(st, s) && Serial(st)
    requires pid in st.procs && Active(st.procs[pid], s) && Holds(st.procs[pid])
    requires b.procs == st.procs[pid := Returned] && b.journals == st.journals
    requires EntryFor(b.index, s) == DueOf(st.journals, s)
    ensures SessionOk(b, s)
  {
    forall q | q in b.procs ensures ProcSerial(b, s, b.procs[q]) {
      if q != pid {
        assert !Active(st.procs[q], s);
        assert !Holds(st.procs[q]);
      }
    }
  }

  // ----- one step

  lemma EnqueueStep(st: State, pid: Pid, s: SessionId)
    requires Inv(st) && SessionOk(st, s) && Serial(st)
    requires pid in st.procs && (st.procs[pid].EnqStarted? || st.procs[pid].EnqRead?)
    ensures SessionOk(Step(st, pid, 0), s)
  {
    var p, b := st.procs[pid], Step(st, pid, 0);
    var journal := JournalOf(st.journals, p.wake.sessionId);
    assert ProcSerial(st, s, p);
    CleanBefore(st, b, pid, s);
    if p.EnqRead? && p.wake.sessionId == s {
      PendingAfterEnqueue(journal, p.wake);
      FoldLast(journal, Enqueued(p.wake));
      UniqueKeysAppend(Pending(journal), p.wake);
      AppendOwn(st, b, pid, s);
    } else {
      KeepSession(st, b, pid, s);
    }
  }

  lemma UniqueKeysAppend(pending: seq<Wake>, wake: Wake)
    requires UniqueKeys(pending) && forall v :: v in pending ==> !HoldsKey(v, wake.dedupeKey)
    ensures UniqueKeys(pending + [wake])
  {
    forall i | 0 <= i < |pending| && Truthy(pending[i].dedupeKey) ensures pending[i].dedupeKey != wake.dedupeKey {
      assert pending[i] in pending;
    }
  }

  lemma EnqueueSyncStep(st: State, pid: Pid, s: SessionId)
    requires Inv(st) && SessionOk(st, s) && Serial(st)
    requires pid in st.procs && (st.procs[pid].EnqAppended? || st.procs[pid].EnqLocked?)
    ensures SessionOk(Step(st, pid, 0), s)
  {
    var p, b := st.procs[pid], Step(st, pid, 0);
    assert ProcSerial(st, s, p) && ProcOk(st, p);
    if b != st {
      if p.wake.sessionId != s {
        CleanBefore(st, b, pid, s);
        KeepSession(st, b, pid, s);
      } else if p.EnqAppended? {
        assert Dirty(b.procs[pid], s);
        KeepSession(st, b, pid, s);
      } else {
        WriteOwn(st, b, pid, s);
      }
    }
  }

  lemma TakeAppends(st: State, pid: Pid, s: SessionId)
    requires SessionOk(st, s) && Serial(st)
    requires pid in st.procs && st.procs[pid].TakeAppending? && st.procs[pid].sessionId == s && st.procs[pid].todo != []
    ensures SessionOk(Step(st, pid, 0), s)
  {
    var p, b := st.procs[pid], Step(st, pid, 0);
    var journal, id := JournalOf(st.journals, s), p.todo[0].id;
    PendingAfterCompletion(journal, id, p.at);
    FilterKeepsUniqueKeys(Pending(journal), Outside({id}));
    AppendOwn(st, b, pid, s);
  }

  lemma TakeStep(st: State, pid: Pid, s: SessionId)
    requires SessionOk(st, s) && Serial(st)
    requires pid in st.procs && (st.procs[pid].TakeStarted? || st.procs[pid].TakeAppending?)
    ensures SessionOk(Step(st, pid, 0), s)
  {
    var p, b := st.procs[pid], Step(st, pid, 0);
    if p.TakeAppending? && p.sessionId == s {
      if p.todo != [] {
        TakeAppends(st, pid, s);
      } else if b != st {
        assert Dirty(b.procs[pid], s);
        KeepSession(st, b, pid, s);
      }
    } else if b != st {
      CleanBefore(st, b, pid, s);
      KeepSession(st, b, pid, s);
    }
  }

  lemma TakeSyncStep(st: State, pid: Pid, s: SessionId)
    requires Inv(st) && SessionOk(st, s) && Serial(st)
    requires pid in st.procs && (st.procs[pid].TakeLocked? || st.procs[pid].TakeReady?)
    ensures SessionOk(Step(st, pid, 0), s)
  {
    var p, b := st.procs[pid], Step(st, pid, 0);
    assert ProcSerial(st, s, p) && ProcOk(st, p);
    if p.sessionId != s {
      CleanBefore(st, b, pid, s);
      KeepSession(st, b, pid, s);
    } else if p.TakeLocked? {
      assert Dirty(b.procs[pid], s);
      KeepSession(st, b, pid, s);
    } else {
      WriteOwn(st, b, pid, s);
    }
  }

  lemma ScanEntryAgrees(
      journals: map<SessionId, seq<Record>>, at: Time, left: Index, confirmed: Index,
      batches: map<SessionId, seq<Wake>>, pick: SessionId, s: SessionId)
    requires pick in left && ScanAgrees(left, confirmed, s, DueOf(journals, s))
    ensures
      var p := ScanEntry(journals, at, left, confirmed, batches, pick);
      p.ListScanning? && ScanAgrees(p.left, p.confirmed, s, DueOf(journals, s))
  {
  }

  lemma ListStarts(st: State, pid: Pid, pick: SessionId, s: SessionId)
    requires SessionOk(st, s) && pid in st.procs && st.procs[pid].ListStarted? && st.lock.None?
    ensures SessionOk(Step(st, pid, pick), s)
  {
    var b := Step(st, pid, pick);
    CleanBefore(st, b, pid, s);
    KeepSession(st, b, pid, s);
  }

  lemma ListScans(st: State, pid: Pid, pick: SessionId, s: SessionId)
    requires SessionOk(st, s) && pid in st.procs && st.procs[pid].ListScanning? && pick in st.procs[pid].left
    ensures SessionOk(Step(st, pid, pick), s)
  {
    var ListScanning(at, left, confirmed, batches) := st.procs[pid];
    var p := ScanEntry(st.journals, at, left, confirmed, batches, pick);
    var b := With(st, pid, p);
    assert Step(st, pid, pick) == b;
    CleanBefore(st, b, pid, s);
    assert ProcSerial(st, s, st.procs[pid]);
    if Clean(b, s) {
      ScanEntryAgrees(st.journals, at, left, confirmed, batches, pick, s);
    }
    KeepSession(st, b, pid, s);
  }

  lemma ListEnds(st: State, pid: Pid, pick: SessionId, s: SessionId)
    requires SessionOk(st, s) && pid in st.procs && st.procs[pid].ListScanning? && st.procs[pid].left == map[]
    ensures SessionOk(Step(st, pid, pick), s)
  {
    var b := Step(st, pid, pick);
    CleanBefore(st, b, pid, s);
    assert ProcSerial(st, s, st.procs[pid]);
    KeepSession(st, b, pid, s);
  }

  lemma ListStep(st: State, pid: Pid, pick: SessionId, s: SessionId)
    requires SessionOk(st, s)
    requires pid in st.procs && (st.procs[pid].ListStarted? || st.procs[pid].ListScanning?)
    ensures SessionOk(Step(st, pid, pick), s)
  {
    var p := st.procs[pid];
    if p.ListStarted? && st.lock.None? {
      ListStarts(st, pid, pick, s);
    }
    if p.ListScanning? && p.left == map[] {
      ListEnds(st, pid, pick, s);
    }
    if p.ListScanning? && pick in p.left {
      ListScans(st, pid, pick, s);
    }
  }

  lemma StepKeepsSession(st: State, a: Action, s: SessionId)
    requires Inv(st) && SessionOk(st, s) && Serial(st) && Permitted(st, a)
    ensures SessionOk(Next(st, a), s)
  {
    var b := Next(st, a);
    match a {
      case Spawn(pid, start) =>
        if b != st {
          CleanBefore(st, b, pid, s);
          KeepSession(st, b, pid, s);
        }
      case TimeOut(pid) =>
        if b != st {
          CleanBefore(st, b, pid, s);
          KeepSession(st, b, pid, s);
        }
      case Advance(pid, pick) =>
        if pid in st.procs {
          assert !st.procs[pid].ListScanning? && !st.procs[pid].ListStarted? ==> b == Step(st, pid, 0);
          match st.procs[pid] {
            case EnqStarted(_) => EnqueueStep(st, pid, s);
            case EnqRead(_, _) => EnqueueStep(st, pid, s);
            case EnqAppended(_, _) => EnqueueSyncStep(st, pid, s);
            case EnqLocked(_, _, _) => EnqueueSyncStep(st, pid, s);
            case TakeStarted(_, _) => TakeStep(st, pid, s);
            case TakeAppending(_, _, _) => TakeStep(st, pid, s);
            case TakeLocked(_, _) => TakeSyncStep(st, pid, s);
            case TakeReady(_, _, _) => TakeSyncStep(st, pid, s);
            case ListStarted(_) => ListStep(st, pid, pick, s);
            case ListScanning(_, _, _, _) => ListStep(st, pid, pick, s);
            case _ =>
          }
        }
    }
  }

  // ----- every orderly run

  lemma OrderlyIsSerial(actions: seq<Action>)
    requires Orderly(actions)
    ensures Serial(Run(actions))
  {
  }

  lemma {:induction false} OrderlyKeepsSession(actions: seq<Action>, s: SessionId)
    requires Orderly(actions)
    ensures SessionOk(Run(actions), s)
  {
    if actions == [] {
      assert Pending([]) == [];
    } else {
      var before := actions[..|actions| - 1];
      OrderlyKeepsSession(before, s);
      OrderlyIsSerial(before);
      InvHolds(before);
      StepKeepsSession(Run(before), actions[|actions| - 1], s);
    }
  }

  /**
   In every orderly run a session without a call under way has exactly the entry its journal
   asks for, and every session's pending wakes hold each non-empty key once, at every moment.
   */
  lemma OrderlyRunsStayExact(actions: seq<Action>, s: SessionId)
    requires Orderly(actions)
    ensures Idle(Run(actions), s) ==> EntryFor(Run(actions).index, s) == DueOf(Run(actions).journals, s)
    ensures UniqueKeys(Pending(JournalOf(Run(actions).journals, s)))
  {
    OrderlyKeepsSession(actions, s);
  }

  /** When no call is under way the index is exactly the earliest due times of all the journals. */
  lemma OrderlyRunsEndExact(actions: seq<Action>)
    requires Orderly(actions) && forall s :: Idle(Run(actions), s)
    ensures Run(actions).index == NextDue(Run(actions).journals)
  {
    var st := Run(actions);
    forall s ensures EntryFor(st.index, s) == EntryFor(NextDue(st.journals), s) {
      OrderlyRunsStayExact(actions, s);
      NextDueEntry(st.journals, s);
    }
    assert forall s :: s in st.index <==> EntryFor(st.index, s).Some?;
    assert forall s :: s in NextDue(st.journals) <==> EntryFor(NextDue(st.journals), s).Some?;
  }
}
