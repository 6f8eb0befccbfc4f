/**
 The wake queue operations as steps of many processes. Reading a journal, appending one
 record, and each access to the index under its lock are separate steps, so any number of
 operations interleave. The lock file itself is assumed to exclude: one holder at a time.
 The index is taken as the map it lists.
 */
module WakeProtocol {
  import opened Options
  import opened Sorting
  import opened WakeJournal
  import opened WakeIndex
  import opened SessionWakeQueues

  type Pid = nat
  type Index = map<SessionId, Time>

  datatype Proc =
    // enqueue
    | EnqStarted(wake: Wake)
    | EnqRead(wake: Wake, known: seq<WakeState>)
    | EnqAppended(wake: Wake, known: seq<WakeState>)
    | EnqLocked(wake: Wake, known: seq<WakeState>, current: Index)
    | EnqThrew(wake: Wake)
    // consumeDue (want is a time), cancelPending (want is absent), consumeKnown (starts appending)
    | TakeStarted(sessionId: SessionId, want: Option<Time>)
    | TakeAppending(sessionId: SessionId, todo: seq<Wake>, at: Time)
    | TakeLocked(sessionId: SessionId, current: Index)
    | TakeReady(sessionId: SessionId, current: Index, next: Option<Time>)
    // listDueSessionWakes
    | ListStarted(at: Time)
    | ListScanning(at: Time, left: Index, confirmed: Index, batches: map<SessionId, seq<Wake>>)
    | ListReturned(at: Time, batches: map<SessionId, seq<Wake>>)
    // any other completed call
    | Returned

  datatype State = State(
    journals: map<SessionId, seq<Record>>, index: Index, lock: Option<Pid>, procs: map<Pid, Proc>)

  datatype Action =
    | Spawn(pid: Pid, start: Proc)
    | Advance(pid: Pid, pick: SessionId)   // `pick` chooses the next entry of a discovery pass
    | TimeOut(pid: Pid)                    // the lock could not be acquired in time

  const INITIAL := State(map[], map[], None, map[])

  predicate Spawnable(p: Proc) {
    p.EnqStarted? || p.TakeStarted? || p.ListStarted? || (p.TakeAppending? && p.todo != [])
  }

  function With(st: State, pid: Pid, p: Proc): State {
    st.(procs := st.procs[pid := p])
  }

  function Append(st: State, s: SessionId, r: Record): State {
    st.(journals := st.journals[s := JournalOf(st.journals, s) + [r]])
  }

  function Next(st: State, a: Action): State {
    match a
    case Spawn(pid, start) =>
      if pid !in st.procs && Spawnable(start) then With(st, pid, start) else st
    case TimeOut(pid) =>
      if pid !in st.procs then st
      else (match st.procs[pid]
        case EnqAppended(wake, _) => With(st, pid, EnqThrew(wake))
        case TakeAppending(_, todo, _) => if todo == [] then With(st, pid, Returned) else st
        case ListStarted(_) => With(st, pid, Returned)
        case _ => st)
    case Advance(pid, pick) =>
      if pid in st.procs then Step(st, pid, pick) else st
  }

  function Step(st: State, pid: Pid, pick: SessionId): State
    requires pid in st.procs
  {
    match st.procs[pid]
    case EnqStarted(wake) =>
      var known := Fold(JournalOf(st.journals, wake.sessionId));
      if FindKey(PendingOf(known), wake.dedupeKey).Some? then With(st, pid, Returned)
      else With(st, pid, EnqRead(wake, known))
    case EnqRead(wake, known) =>
      With(Append(st, wake.sessionId, Enqueued(wake)), pid, EnqAppended(wake, known))
    case EnqAppended(wake, known) =>
      if st.lock.None? then With(st, pid, EnqLocked(wake, known, st.index)).(lock := Some(pid)) else st
    case EnqLocked(wake, known, current) =>
      var next := EarliestDue(PendingOf(SetState(known, WakeState(wake, None))));
      With(st, pid, Returned).(index := Put(current, wake.sessionId, next), lock := None)
    case TakeStarted(s, want) =>
      var pending := Pending(JournalOf(st.journals, s));
      var wakes := StableSort(if want.Some? then Filter(pending, IsDue(want.value)) else pending, DueLe);
      With(st, pid, if wakes == [] then Returned else TakeAppending(s, wakes, want.GetOr(0)))
    case TakeAppending(s, todo, at) =>
      if todo != [] then
        With(Append(st, s, Completed(todo[0].id, at)), pid, TakeAppending(s, todo[1..], at))
      else if st.lock.None? then With(st, pid, TakeLocked(s, st.index)).(lock := Some(pid))
      else st
    case TakeLocked(s, current) =>
      With(st, pid, TakeReady(s, current, DueOf(st.journals, s)))
    case TakeReady(s, current, next) =>
      With(st, pid, Returned).(index := Put(current, s, next), lock := None)
    case ListStarted(at) =>
      if st.lock.None? then With(st, pid, ListScanning(at, st.index, map[], map[])).(lock := Some(pid)) else st
    case ListScanning(at, left, confirmed, batches) =>
      if left == map[] then With(st, pid, ListReturned(at, batches)).(index := confirmed, lock := None)
      else if pick !in left then st
      else With(st, pid, ScanEntry(st.journals, at, left, confirmed, batches, pick))
    case _ => st
  }

  /** One entry of a discovery pass: a later entry is kept, another is read and corrected or dropped. */
  function ScanEntry(
      journals: map<SessionId, seq<Record>>, at: Time, left: Index, confirmed: Index,
      batches: map<SessionId, seq<Wake>>, s: SessionId): Proc
    requires s in left
  {
    var rest := left - {s};
    if left[s] > at then ListScanning(at, rest, confirmed[s := left[s]], batches)
    else
      var next := DueOf(journals, s);
      var due := DueBy(JournalOf(journals, s), at);
      if next.None? then ListScanning(at, rest, confirmed, batches)
      else ListScanning(at, rest, confirmed[s := next.value], if due == [] then batches else batches[s := due])
  }

  function Run(actions: seq<Action>): State {
    if actions == [] then INITIAL
    else Next(Run(actions[..|actions| - 1]), actions[|actions| - 1])
  }

  // ----- the invariant

  /** `wake`'s record is in its journal but its enqueue has not updated the index. */
  ghost predicate Unsynced(st: State, wake: Wake) {
    exists pid :: pid in st.procs && Owes(st.procs[pid], wake)
  }

  predicate Owes(p: Proc, wake: Wake) {
    (p.EnqAppended? || p.EnqLocked? || p.EnqThrew?) && p.wake == wake
  }

  /** A pending wake whose enqueue has finished. */
  ghost predicate Settled(st: State, s: SessionId, wake: Wake) {
    wake in Pending(JournalOf(st.journals, s)) && !Unsynced(st, wake)
  }

  /** `d` is the due time of a wake enqueued for `s`. */
  ghost predicate DueInJournal(st: State, s: SessionId, d: Time) {
    exists w :: w in EnqueuedWakes(JournalOf(st.journals, s)) && w.dueAt == d
  }

  ghost predicate DuesInJournal(st: State, due: Index) {
    forall s :: s in due ==> DueInJournal(st, s, due[s])
  }

  /** Some wake enqueued for `s` is due only after `at`. */
  ghost predicate HasLater(st: State, s: SessionId, at: Time) {
    exists w :: w in EnqueuedWakes(JournalOf(st.journals, s)) && w.dueAt > at
  }

  ghost predicate KnownOk(st: State, s: SessionId, known: seq<WakeState>) {
    forall k :: k in known ==> k.wake in EnqueuedWakes(JournalOf(st.journals, s))
  }

  predicate Holds(p: Proc) {
    p.EnqLocked? || p.TakeLocked? || p.TakeReady? || p.ListScanning?
  }

  ghost predicate ProcOk(st: State, p: Proc) {
    match p
    case EnqRead(wake, known) => KnownOk(st, wake.sessionId, known)
    case EnqAppended(wake, known) =>
      KnownOk(st, wake.sessionId, known) && wake in EnqueuedWakes(JournalOf(st.journals, wake.sessionId))
    case EnqLocked(wake, known, current) =>
      && KnownOk(st, wake.sessionId, known) && wake in EnqueuedWakes(JournalOf(st.journals, wake.sessionId))
      && current == st.index
    case TakeLocked(s, current) => current == st.index
    case TakeReady(s, current, next) =>
      && current == st.index
      && (next.Some? ==> DueInJournal(st, s, next.value))
      && (next.None? ==> forall w :: !Settled(st, s, w))
    case ListScanning(at, left, confirmed, batches) =>
      && DuesInJournal(st, left) && DuesInJournal(st, confirmed)
      && (forall s, w :: Settled(st, s, w) ==> s in left || s in confirmed)
      && (forall s, w :: Settled(st, s, w) ==>
            s in left || (s in batches && w in batches[s]) || HasLater(st, s, at))
      && (forall s, w :: s in batches && w in batches[s] ==>
            w.dueAt <= at && w in EnqueuedWakes(JournalOf(st.journals, s)))
    case _ => true
  }

  ghost predicate Inv(st: State) {
    && (forall s, w :: w in EnqueuedWakes(JournalOf(st.journals, s)) ==> w.sessionId == s)
    && (forall s, w :: Settled(st, s, w) ==> s in st.index)
    && DuesInJournal(st, st.index)
    && (forall pid :: pid in st.procs ==> ProcOk(st, st.procs[pid]))
    && (forall pid :: pid in st.procs && Holds(st.procs[pid]) ==> st.lock == Some(pid))
  }

  // ----- preservation

  lemma PendingAfterRecord(records: seq<Record>, r: Record, wake: Wake)
    ensures wake in Pending(records + [r])
       <==> r == Enqueued(wake) || (wake in Pending(records) && Names(r) != wake.id)
  {
    FoldLast(records, r);
    FoldStates(records);
    PendingOfIn(Fold(records));
    PendingOfIn(Fold(records + [r]));
    OpenAfterRecord(Fold(records), r, wake);
  }

  /** Journals only grow, and nothing becomes settled. */
  ghost predicate Quiet(a: State, b: State) {
    && (forall s, w :: w in EnqueuedWakes(JournalOf(a.journals, s)) ==> w in EnqueuedWakes(JournalOf(b.journals, s)))
    && (forall s, w :: Settled(b, s, w) ==> Settled(a, s, w))
  }

  lemma ProcOkStable(a: State, b: State, p: Proc)
    requires Quiet(a, b) && ProcOk(a, p) && (Holds(p) ==> b.index == a.index)
    ensures ProcOk(b, p)
  {
    forall s, d | DueInJournal(a, s, d) ensures DueInJournal(b, s, d) {}
    forall s, at | HasLater(a, s, at) ensures HasLater(b, s, at) {}
  }

  /** A step that changes one process and no journal is quiet if no debt is dropped. */
  lemma QuietWith(st: State, pid: Pid, p: Proc, b: State)
    requires b.journals == st.journals && b.procs == st.procs[pid := p]
    requires pid in st.procs ==> forall w :: Owes(st.procs[pid], w) ==> Owes(p, w)
    ensures Quiet(st, b)
  {
    forall w | Unsynced(st, w) ensures Unsynced(b, w) {
      var q :| q in st.procs && Owes(st.procs[q], w);
      assert q in b.procs && Owes(b.procs[q], w);
    }
  }

  lemma QuietAppend(st: State, pid: Pid, p: Proc, s: SessionId, r: Record, b: State)
    requires pid in st.procs && forall w :: !Owes(st.procs[pid], w)
    requires b == With(Append(st, s, r), pid, p)
    requires r.Enqueued? ==> Owes(p, r.wake)
    ensures Quiet(st, b)
  {
    var j := JournalOf(st.journals, s);
    forall t, w | w in EnqueuedWakes(JournalOf(st.journals, t)) ensures w in EnqueuedWakes(JournalOf(b.journals, t)) {
      assert Enqueued(w) in JournalOf(st.journals, t);
      assert Enqueued(w) in JournalOf(b.journals, t);
    }
    forall w | Unsynced(st, w) ensures Unsynced(b, w) {
      var q :| q in st.procs && Owes(st.procs[q], w);
      assert q in b.procs && Owes(b.procs[q], w);
    }
    forall t, w | Settled(b, t, w) ensures Settled(st, t, w) {
      PendingAfterRecord(j, r, w);
      assert b.procs[pid] == p;
    }
  }

  /** The invariant after a quiet step that left the index alone. */
  lemma InvAfterQuiet(st: State, b: State, pid: Pid)
    requires Inv(st) && Quiet(st, b) && b.index == st.index
    requires pid in b.procs && b.procs == st.procs[pid := b.procs[pid]]
    requires ProcOk(b, b.procs[pid])
    requires forall s, w :: w in EnqueuedWakes(JournalOf(b.journals, s)) ==> w.sessionId == s
    requires b.lock == st.lock || (st.lock.None? && b.lock == Some(pid))
    requires Holds(b.procs[pid]) ==> b.lock == Some(pid)
    ensures Inv(b)
  {
    forall q | q in b.procs ensures ProcOk(b, b.procs[q]) {
      if q != pid {
        ProcOkStable(st, b, st.procs[q]);
      }
    }
    forall s, d | DueInJournal(st, s, d) ensures DueInJournal(b, s, d) {}
  }

  /** The invariant after the lock holder writes the index and releases the lock. */
  lemma InvAfterWrite(st: State, b: State, pid: Pid)
    requires Inv(st) && b.journals == st.journals
    requires pid in st.procs && Holds(st.procs[pid]) && b.lock.None?
    requires pid in b.procs && b.procs == st.procs[pid := b.procs[pid]]
    requires ProcOk(b, b.procs[pid]) && !Holds(b.procs[pid])
    requires forall s, w :: Settled(b, s, w) ==> s in b.index
    requires DuesInJournal(st, b.index)
    ensures Inv(b)
  {
    forall q | q in b.procs ensures ProcOk(b, b.procs[q]) && !Holds(b.procs[q]) {
      if q != pid {
        assert ProcOk(st, st.procs[q]) && !Holds(st.procs[q]);
      }
    }
    forall s, d | DueInJournal(st, s, d) ensures DueInJournal(b, s, d) {}
  }

  lemma EarliestInJournal(st: State, s: SessionId, pending: seq<Wake>)
    requires forall w :: w in pending ==> w in EnqueuedWakes(JournalOf(st.journals, s))
    ensures EarliestDue(pending).Some? ==> DueInJournal(st, s, EarliestDue(pending).value)
  {
  }

  lemma StepEnqueue(st: State, pid: Pid, pick: SessionId)
    requires Inv(st) && pid in st.procs
    requires st.procs[pid].EnqStarted? || st.procs[pid].EnqRead? || st.procs[pid].EnqAppended?
    ensures Inv(Step(st, pid, pick))
  {
    var b := Step(st, pid, pick);
    match st.procs[pid] {
      case EnqStarted(wake) =>
        FoldStates(JournalOf(st.journals, wake.sessionId));
        QuietWith(st, pid, b.procs[pid], b);
        InvAfterQuiet(st, b, pid);
      case EnqRead(wake, known) =>
        QuietAppend(st, pid, b.procs[pid], wake.sessionId, Enqueued(wake), b);
        EnqueuedWakesAppend(JournalOf(st.journals, wake.sessionId), wake);
        ProcOkStable(st, b, st.procs[pid]);
        InvAfterQuiet(st, b, pid);
      case EnqAppended(wake, known) =>
        if st.lock.None? {
          QuietWith(st, pid, b.procs[pid], b);
          InvAfterQuiet(st, b, pid);
        }
    }
  }

  lemma StepEnqueueWrites(st: State, pid: Pid, pick: SessionId)
    requires Inv(st) && pid in st.procs && st.procs[pid].EnqLocked?
    ensures Inv(Step(st, pid, pick))
  {
    var b := Step(st, pid, pick);
    var EnqLocked(wake, known, current) := st.procs[pid];
    var s := wake.sessionId;
    var states := SetState(known, WakeState(wake, None));
    PendingOfIn(states);
    var i := IndexOf(known, wake.id);
    assert states[i] == WakeState(wake, None);
    assert wake in PendingOf(states);
    forall w | w in PendingOf(states) ensures w in EnqueuedWakes(JournalOf(st.journals, s)) {
      assert WakeState(w, None) in known || w == wake;
    }
    EarliestInJournal(st, s, PendingOf(states));
    forall t, w | Settled(b, t, w) ensures t in b.index {
      PendingWasEnqueued(JournalOf(b.journals, t));
      if t != s {
        DebtsElsewhere(st, b, pid, wake, w);
        assert Settled(st, t, w);
      }
    }
    InvAfterWrite(st, b, pid);
  }

  /** Paying one debt settles only the wake it was owed for. */
  lemma DebtsElsewhere(st: State, b: State, pid: Pid, paid: Wake, w: Wake)
    requires pid in st.procs && b.procs == st.procs[pid := Returned]
    requires forall v :: Owes(st.procs[pid], v) ==> v == paid
    ensures w != paid && Unsynced(st, w) ==> Unsynced(b, w)
  {
    if w != paid && Unsynced(st, w) {
      var q :| q in st.procs && Owes(st.procs[q], w);
      assert q in b.procs && Owes(b.procs[q], w);
    }
  }

  lemma StepTake(st: State, pid: Pid, pick: SessionId)
    requires Inv(st) && pid in st.procs
    requires st.procs[pid].TakeStarted? || st.procs[pid].TakeAppending? || st.procs[pid].TakeLocked? || st.procs[pid].TakeReady?
    ensures Inv(Step(st, pid, pick))
  {
    var b := Step(st, pid, pick);
    match st.procs[pid] {
      case TakeStarted(s, want) =>
        QuietWith(st, pid, b.procs[pid], b);
        InvAfterQuiet(st, b, pid);
      case TakeAppending(s, todo, at) =>
        if todo != [] {
          QuietAppend(st, pid, b.procs[pid], s, Completed(todo[0].id, at), b);
          InvAfterQuiet(st, b, pid);
        } else if st.lock.None? {
          QuietWith(st, pid, b.procs[pid], b);
          InvAfterQuiet(st, b, pid);
        }
      case TakeLocked(s, current) =>
        QuietWith(st, pid, b.procs[pid], b);
        PendingWasEnqueued(JournalOf(st.journals, s));
        EarliestInJournal(b, s, Pending(JournalOf(st.journals, s)));
        InvAfterQuiet(st, b, pid);
      case TakeReady(s, current, next) =>
        QuietWith(st, pid, b.procs[pid], b);
        InvAfterWrite(st, b, pid);
    }
  }

  lemma StepList(st: State, pid: Pid, pick: SessionId)
    requires Inv(st) && pid in st.procs && (st.procs[pid].ListStarted? || st.procs[pid].ListScanning?)
    ensures Inv(Step(st, pid, pick))
  {
    var b := Step(st, pid, pick);
    match st.procs[pid] {
      case ListStarted(at) =>
        if st.lock.None? {
          QuietWith(st, pid, b.procs[pid], b);
          InvAfterQuiet(st, b, pid);
        }
      case ListScanning(at, left, confirmed, batches) =>
        QuietWith(st, pid, b.procs[pid], b);
        if left == map[] {
          InvAfterWrite(st, b, pid);
        } else if pick in left {
          ScanKeepsOk(st, at, left, confirmed, batches, pick);
          ProcOkStable(st, b, b.procs[pid]);
          InvAfterQuiet(st, b, pid);
        }
    }
  }

  lemma ScanKeepsOk(
      st: State, at: Time, left: Index, confirmed: Index, batches: map<SessionId, seq<Wake>>, s: SessionId)
    requires s in left && ProcOk(st, ListScanning(at, left, confirmed, batches))
    ensures ProcOk(st, ScanEntry(st.journals, at, left, confirmed, batches, s))
  {
    var p := ScanEntry(st.journals, at, left, confirmed, batches, s);
    ScanKeepsDues(st, at, left, confirmed, batches, s);
    forall t, w | Settled(st, t, w)
      ensures t in p.left || t in p.confirmed
      ensures t in p.left || (t in p.batches && w in p.batches[t]) || HasLater(st, t, at)
    {
      ScanFindsWake(st, at, left, confirmed, batches, s, t, w);
    }
    forall t, w | t in p.batches && w in p.batches[t]
      ensures w.dueAt <= at && w in EnqueuedWakes(JournalOf(st.journals, t))
    {
      ScanReportsDue(st, at, left, confirmed, batches, s, t, w);
    }
  }

  lemma ScanKeepsDues(
      st: State, at: Time, left: Index, confirmed: Index, batches: map<SessionId, seq<Wake>>, s: SessionId)
    requires s in left && DuesInJournal(st, left) && DuesInJournal(st, confirmed)
    ensures var p := ScanEntry(st.journals, at, left, confirmed, batches, s);
      DuesInJournal(st, p.left) && DuesInJournal(st, p.confirmed)
  {
    var j := JournalOf(st.journals, s);
    PendingWasEnqueued(j);
    EarliestInJournal(st, s, Pending(j));
  }

  lemma ScanFindsWake(
      st: State, at: Time, left: Index, confirmed: Index, batches: map<SessionId, seq<Wake>>,
      s: SessionId, t: SessionId, w: Wake)
    requires s in left && DueInJournal(st, s, left[s])
    requires w in Pending(JournalOf(st.journals, t))
    requires t in left || t in confirmed
    requires t in left || (t in batches && w in batches[t]) || HasLater(st, t, at)
    ensures var p := ScanEntry(st.journals, at, left, confirmed, batches, s);
      && (t in p.left || t in p.confirmed)
      && (t in p.left || (t in p.batches && w in p.batches[t]) || HasLater(st, t, at))
  {
    if t == s && left[s] <= at {
      BatchWakes(JournalOf(st.journals, s), at);
      PendingWasEnqueued(JournalOf(st.journals, s));
    }
  }

  lemma ScanReportsDue(
      st: State, at: Time, left: Index, confirmed: Index, batches: map<SessionId, seq<Wake>>,
      s: SessionId, t: SessionId, w: Wake)
    requires s in left
    requires t in batches && w in batches[t] ==> w.dueAt <= at && w in EnqueuedWakes(JournalOf(st.journals, t))
    ensures var p := ScanEntry(st.journals, at, left, confirmed, batches, s);
      t in p.batches && w in p.batches[t] ==> w.dueAt <= at && w in EnqueuedWakes(JournalOf(st.journals, t))
  {
    BatchWakes(JournalOf(st.journals, s), at);
    PendingWasEnqueued(JournalOf(st.journals, s));
  }

  lemma {:induction false} InvHolds(actions: seq<Action>)
    ensures Inv(Run(actions))
  {
    if actions != [] {
      var st, a := Run(actions[..|actions| - 1]), actions[|actions| - 1];
      InvHolds(actions[..|actions| - 1]);
      NextKeepsInv(st, a);
    }
  }

  lemma NextKeepsInv(st: State, a: Action)
    requires Inv(st)
    ensures Inv(Next(st, a))
  {
    var b := Next(st, a);
    match a {
      case Spawn(pid, start) =>
        if pid !in st.procs && Spawnable(start) {
          QuietWith(st, pid, start, b);
          InvAfterQuiet(st, b, pid);
        }
      case TimeOut(pid) =>
        if pid in st.procs && b != st {
          QuietWith(st, pid, b.procs[pid], b);
          InvAfterQuiet(st, b, pid);
        }
      case Advance(pid, pick) =>
        if pid in st.procs {
          match st.procs[pid] {
            case EnqStarted(_) => StepEnqueue(st, pid, pick);
            case EnqRead(_, _) => StepEnqueue(st, pid, pick);
            case EnqAppended(_, _) => StepEnqueue(st, pid, pick);
            case EnqLocked(_, _, _) => StepEnqueueWrites(st, pid, pick);
            case TakeStarted(_, _) => StepTake(st, pid, pick);
            case TakeAppending(_, _, _) => StepTake(st, pid, pick);
            case TakeLocked(_, _) => StepTake(st, pid, pick);
            case TakeReady(_, _, _) => StepTake(st, pid, pick);
            case ListStarted(_) => StepList(st, pid, pick);
            case ListScanning(_, _, _, _) => StepList(st, pid, pick);
            case _ =>
          }
        }
    }
  }

  // ----- the theorems

  /**
   Under every interleaving, a session holding a pending wake whose enqueue has finished is
   in the index, and every indexed due time is that of some wake enqueued for that session.
   */
  lemma SettledWakesAreIndexed(actions: seq<Action>)
    ensures forall s, w :: Settled(Run(actions), s, w) ==> s in Run(actions).index
    ensures DuesInJournal(Run(actions), Run(actions).index)
  {
    InvHolds(actions);
  }

  /**
   When a discovery pass returns, every settled pending wake of a session whose enqueued
   wakes are all due by then is in that session's batch, and batches hold only due wakes.
   */
  lemma DiscoveryFindsSettledWakes(actions: seq<Action>, pid: Pid, pick: SessionId)
    requires pid in Run(actions).procs && Run(actions).procs[pid].ListScanning?
    requires Step(Run(actions), pid, pick).procs[pid].ListReturned?
    ensures var b := Step(Run(actions), pid, pick);
      var ListReturned(at, batches) := b.procs[pid];
      && (forall s, w :: Settled(b, s, w) && (forall v :: v in EnqueuedWakes(JournalOf(b.journals, s)) ==> v.dueAt <= at)
            ==> s in batches && w in batches[s])
      && (forall s, w :: s in batches && w in batches[s] ==>
            w.dueAt <= at && w in EnqueuedWakes(JournalOf(b.journals, s)))
  {
    var st := Run(actions);
    var b := Step(st, pid, pick);
    InvHolds(actions);
    QuietWith(st, pid, b.procs[pid], b);
    var ListScanning(at, left, confirmed, batches) := st.procs[pid];
    assert ProcOk(st, ListScanning(at, left, confirmed, batches)) && left == map[];
    forall s, w | Settled(b, s, w) && (forall v :: v in EnqueuedWakes(JournalOf(b.journals, s)) ==> v.dueAt <= at)
      ensures s in batches && w in batches[s]
    {
      assert Settled(st, s, w) && !HasLater(st, s, at);
    }
  }

  lemma RunExtends(actions: seq<Action>, a: Action)
    ensures Run(actions + [a]) == Next(Run(actions), a)
  {
    assert (actions + [a])[..|actions|] == actions;
  }

  /** Two enqueues for session 0 that both read the empty journal before either appends. */
  function Race(first: Wake, second: Wake): seq<Action> {
    [Spawn(1, EnqStarted(first)), Spawn(2, EnqStarted(second)), Advance(1, 0), Advance(2, 0)]
    + [Advance(1, 0), Advance(2, 0)] + [Advance(1, 0), Advance(1, 0)] + [Advance(2, 0), Advance(2, 0)]
  }

  lemma RaceReads(first: Wake, second: Wake) returns (done: seq<Action>)
    ensures done == Race(first, second)[..4]
    ensures Run(done) == State(map[], map[], None, map[1 := EnqRead(first, []), 2 := EnqRead(second, [])])
  {
    RunExtends([], Spawn(1, EnqStarted(first)));
    var a1 := [Spawn(1, EnqStarted(first))];
    assert [] + a1 == a1;
    RunExtends(a1, Spawn(2, EnqStarted(second)));
    RunExtends(a1 + [Spawn(2, EnqStarted(second))], Advance(1, 0));
    RunExtends(a1 + [Spawn(2, EnqStarted(second))] + [Advance(1, 0)], Advance(2, 0));
    done := a1 + [Spawn(2, EnqStarted(second))] + [Advance(1, 0)] + [Advance(2, 0)];
  }

  lemma RaceAppends(first: Wake, second: Wake) returns (done: seq<Action>)
    requires first.sessionId == second.sessionId
    ensures done == Race(first, second)[..6]
    ensures Run(done) == State(map[first.sessionId := [Enqueued(first), Enqueued(second)]], map[], None,
                               map[1 := EnqAppended(first, []), 2 := EnqAppended(second, [])])
  {
    var read := RaceReads(first, second);
    RunExtends(read, Advance(1, 0));
    assert [] + [Enqueued(first)] == [Enqueued(first)];
    assert Run(read + [Advance(1, 0)]) == State(map[first.sessionId := [Enqueued(first)]], map[], None,
                               map[1 := EnqAppended(first, []), 2 := EnqRead(second, [])]);
    RunExtends(read + [Advance(1, 0)], Advance(2, 0));
    assert [Enqueued(first)] + [Enqueued(second)] == [Enqueued(first), Enqueued(second)];
    done := read + [Advance(1, 0)] + [Advance(2, 0)];
  }

  lemma RaceFirstSyncs(first: Wake, second: Wake) returns (done: seq<Action>)
    requires first.sessionId == second.sessionId
    ensures done == Race(first, second)[..8]
    ensures Run(done) == State(map[first.sessionId := [Enqueued(first), Enqueued(second)]],
                               map[first.sessionId := first.dueAt], None, map[1 := Returned, 2 := EnqAppended(second, [])])
  {
    var appended := RaceAppends(first, second);
    SoleDue(first);
    RunExtends(appended, Advance(1, 0));
    RunExtends(appended + [Advance(1, 0)], Advance(1, 0));
    done := appended + [Advance(1, 0)] + [Advance(1, 0)];
  }

  lemma RaceRuns(first: Wake, second: Wake)
    requires first.sessionId == second.sessionId
    ensures Run(Race(first, second)) == State(map[first.sessionId := [Enqueued(first), Enqueued(second)]],
              map[first.sessionId := second.dueAt], None, map[1 := Returned, 2 := Returned])
  {
    var synced := RaceFirstSyncs(first, second);
    SoleDue(second);
    RunExtends(synced, Advance(2, 0));
    RunExtends(synced + [Advance(2, 0)], Advance(2, 0));
    assert synced + [Advance(2, 0)] + [Advance(2, 0)] == Race(first, second);
  }

  lemma SoleDue(wake: Wake)
    ensures EarliestDue(PendingOf(SetState([], WakeState(wake, None)))) == Some(wake.dueAt)
  {
    assert SetState([], WakeState(wake, None)) == [WakeState(wake, None)];
    assert PendingOf([WakeState(wake, None)]) == [wake];
  }

  lemma RaceNextDue(first: Wake, second: Wake, journals: map<SessionId, seq<Record>>)
    requires first.id != second.id && journals == map[first.sessionId := [Enqueued(first), Enqueued(second)]]
    ensures Pending(journals[first.sessionId]) == [first, second]
    ensures NextDue(journals) == map[first.sessionId := if second.dueAt <= first.dueAt then second.dueAt else first.dueAt]
  {
    PendingAfterEnqueue([], first);
    PendingAfterEnqueue([Enqueued(first)], second);
    assert [] + [Enqueued(first)] + [Enqueued(second)] == [Enqueued(first), Enqueued(second)];
    var s, pending := first.sessionId, [first, second];
    assert pending[0] in pending && pending[1] in pending;
    var least := if second.dueAt <= first.dueAt then second.dueAt else first.dueAt;
    assert EarliestDue(pending) == Some(least);
    NextDueEntry(journals, s);
    assert NextDue(journals).Keys == {s};
  }

  /**
   What interleaving does not keep: the index can be left at the later of two due times after
   every call has returned, and one dedupe key can end up held by two pending wakes.
   */
  lemma RacingEnqueuesLoseExactness(first: Wake, second: Wake)
    requires first.sessionId == second.sessionId && first.id != second.id
    ensures var st := Run(Race(first, second));
      && (forall pid :: pid in st.procs ==> st.procs[pid] == Returned)
      && (st.index == NextDue(st.journals) <==> second.dueAt <= first.dueAt)
      && Pending(JournalOf(st.journals, first.sessionId)) == [first, second]
  {
    RaceRuns(first, second);
    RaceNextDue(first, second, Run(Race(first, second)).journals);
  }
}
