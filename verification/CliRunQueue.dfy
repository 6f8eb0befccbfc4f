/**
 The promise chain that lets one command-line run per key proceed at a time, as a transition
 system: calls arrive, wait for the promise they found in the map, run and release.
 */
module CliRunQueue {
  import opened Options

  type Key = string

  /** The promises of a call: its own ticket, and the one that settles after it and all before it. */
  datatype Promise = Ticket(call: nat) | Chain(call: nat)

  datatype Phase = Waiting | Running | Released

  /** `previous` is what the call found under its key, a promise already resolved when nothing was there. */
  datatype Call = Call(key: Key, previous: Option<Promise>, phase: Phase)

  datatype State = State(calls: seq<Call>, settled: set<nat>, queues: map<Key, Promise>)

  datatype Step =
    | Enqueue(key: Key)
    | SettleChain(call: nat)
    | StartTask(call: nat)
    | FinishTask(call: nat, threw: bool)

  const EMPTY := State([], {}, map[])

  function Lookup(queues: map<Key, Promise>, key: Key): Option<Promise> {
    if key in queues then Some(queues[key]) else None
  }

  /** Whether the promise has settled: a ticket by its release, a chain by its own step. */
  predicate Settled(s: State, promise: Option<Promise>) {
    match promise
    case None => true
    case Some(Ticket(c)) => c < |s.calls| && s.calls[c].phase.Released?
    case Some(Chain(c)) => c in s.settled
  }

  predicate Enabled(s: State, step: Step) {
    match step
    case Enqueue(_) => true
    case SettleChain(c) =>
      c < |s.calls| && c !in s.settled && s.calls[c].phase.Released? && Settled(s, s.calls[c].previous)
    case StartTask(c) => c < |s.calls| && s.calls[c].phase.Waiting? && Settled(s, s.calls[c].previous)
    case FinishTask(c, _) => c < |s.calls| && s.calls[c].phase.Running?
  }

  /** What a step does; a task that throws releases as one that returns does. */
  function Apply(s: State, step: Step): State
    requires Enabled(s, step)
  {
    match step
    case Enqueue(key) =>
      s.(calls := s.calls + [Call(key, Lookup(s.queues, key), Waiting)],
         queues := s.queues[key := Chain(|s.calls|)])
    case SettleChain(c) => s.(settled := s.settled + {c})
    case StartTask(c) => s.(calls := s.calls[c := s.calls[c].(phase := Running)])
    case FinishTask(c, _) =>
      var key := s.calls[c].key;
      s.(calls := s.calls[c := s.calls[c].(phase := Released)],
         queues := if Lookup(s.queues, key) == Some(Ticket(c)) then s.queues - {key} else s.queues)
  }

  /** The state after a run of steps, when each was enabled. */
  function Run(steps: seq<Step>): Option<State> {
    if steps == [] then Some(EMPTY)
    else
      var before := Run(steps[..|steps| - 1]);
      var step := steps[|steps| - 1];
      if before.Some? && Enabled(before.value, step) then Some(Apply(before.value, step)) else None
  }

  // ----- the invariant

  /** `i` is the last call with the key before position `end`. */
  predicate LastBefore(s: State, key: Key, end: nat, i: nat) {
    && i < end <= |s.calls| && s.calls[i].key == key
    && forall k :: i < k < end ==> s.calls[k].key != key
  }

  /** The chain of the last call with the key before `end`, or nothing when there was none. */
  predicate IsPrevious(s: State, key: Key, end: nat, promise: Option<Promise>) {
    match promise
    case None => end <= |s.calls| && forall k :: 0 <= k < end ==> s.calls[k].key != key
    case Some(Ticket(_)) => false
    case Some(Chain(i)) => LastBefore(s, key, end, i)
  }

  predicate LinkedAt(s: State, i: nat)
    requires i < |s.calls|
  {
    && IsPrevious(s, s.calls[i].key, i, s.calls[i].previous)
    && (i in s.settled ==> s.calls[i].phase.Released? && Settled(s, s.calls[i].previous))
    && (!s.calls[i].phase.Waiting? ==> Settled(s, s.calls[i].previous))
  }

  ghost predicate Linked(s: State) {
    && (forall i :: 0 <= i < |s.calls| ==> LinkedAt(s, i))
    && (forall i :: i in s.settled ==> i < |s.calls|)
    && forall key :: IsPrevious(s, key, |s.calls|, Lookup(s.queues, key))
  }

  lemma LinkedKept(s: State, step: Step)
    requires Linked(s) && Enabled(s, step)
    ensures Linked(Apply(s, step))
  {
    var t := Apply(s, step);
    forall i | 0 <= i < |t.calls| ensures LinkedAt(t, i) {
      if i < |s.calls| {
        assert LinkedAt(s, i);
        LinkedAtKept(s, step, i);
      } else {
        assert IsPrevious(s, step.key, |s.calls|, Lookup(s.queues, step.key));
        PreviousKept(s, t, step.key, |s.calls|, Lookup(s.queues, step.key));
      }
    }
    forall key ensures IsPrevious(t, key, |t.calls|, Lookup(t.queues, key)) {
      assert IsPrevious(s, key, |s.calls|, Lookup(s.queues, key));
      if step.FinishTask? {
        assert IsPrevious(s, s.calls[step.call].key, |s.calls|, Lookup(s.queues, s.calls[step.call].key));
        assert t.queues == s.queues;
      }
      if !step.Enqueue? {
        PreviousKept(s, t, key, |s.calls|, Lookup(s.queues, key));
      }
    }
  }

  /** No step changes the key of a call. */
  predicate SameKeys(s: State, t: State) {
    |s.calls| <= |t.calls| && forall k :: 0 <= k < |s.calls| ==> t.calls[k].key == s.calls[k].key
  }

  lemma PreviousKept(s: State, t: State, key: Key, end: nat, promise: Option<Promise>)
    requires SameKeys(s, t) && end <= |s.calls| && IsPrevious(s, key, end, promise)
    ensures IsPrevious(t, key, end, promise)
  {
  }

  lemma LinkedAtKept(s: State, step: Step, i: nat)
    requires Enabled(s, step) && i < |s.calls| && LinkedAt(s, i)
    ensures LinkedAt(Apply(s, step), i)
  {
    var t := Apply(s, step);
    PreviousKept(s, t, s.calls[i].key, i, s.calls[i].previous);
    assert t.calls[i].previous == s.calls[i].previous;
    assert Settled(s, s.calls[i].previous) ==> Settled(t, s.calls[i].previous);
  }

  lemma {:induction false} Reachable(steps: seq<Step>)
    ensures Run(steps).Some? ==> Linked(Run(steps).value)
  {
    if steps != [] {
      Reachable(steps[..|steps| - 1]);
      var before := Run(steps[..|steps| - 1]);
      if before.Some? && Enabled(before.value, steps[|steps| - 1]) {
        LinkedKept(before.value, steps[|steps| - 1]);
      }
    }
  }

  // ----- one at a time, in call order

  /** A chain that has settled comes after the release of every call with its key up to its own. */
  lemma {:induction false} SettledMeansReleased(s: State, i: nat, j: nat)
    requires Linked(s) && i <= j < |s.calls| && s.calls[i].key == s.calls[j].key && j in s.settled
    ensures s.calls[i].phase.Released?
    decreases j
  {
    assert LinkedAt(s, j);
    if i < j {
      if s.calls[j].previous.Some? {
        SettledMeansReleased(s, i, s.calls[j].previous.value.call);
      }
    }
  }

  /** A call that has started comes after the release of every earlier call with its key. */
  lemma StartedAfterReleases(s: State, i: nat, j: nat)
    requires Linked(s) && i < j < |s.calls| && s.calls[i].key == s.calls[j].key
    requires !s.calls[j].phase.Waiting?
    ensures s.calls[i].phase.Released?
  {
    assert LinkedAt(s, j);
    if s.calls[j].previous.Some? {
      SettledMeansReleased(s, i, s.calls[j].previous.value.call);
    }
  }

  /**
   Under every interleaving, with tasks that throw or not: at most one call of a key is
   running, calls of a key start in the order they were made, and each starts only after every
   earlier one has released.
   */
  lemma OneAtATimeInOrder(steps: seq<Step>, i: nat, j: nat)
    requires Run(steps).Some? && i < j < |Run(steps).value.calls|
    requires Run(steps).value.calls[i].key == Run(steps).value.calls[j].key
    ensures
      var calls := Run(steps).value.calls;
      && !(calls[i].phase.Running? && calls[j].phase.Running?)
      && (!calls[j].phase.Waiting? ==> calls[i].phase.Released?)
  {
    Reachable(steps);
    var s := Run(steps).value;
    if !s.calls[j].phase.Waiting? {
      StartedAfterReleases(s, i, j);
    }
  }

  // ----- nobody waits for ever behind a finished call

  /** The first call with the key that has not settled its chain. */
  lemma {:induction false} FirstUnsettled(s: State, i: nat) returns (first: nat)
    requires Linked(s) && i < |s.calls| && i !in s.settled
    ensures first <= i && s.calls[first].key == s.calls[i].key && first !in s.settled
    ensures Settled(s, s.calls[first].previous)
    decreases i
  {
    assert LinkedAt(s, i);
    if s.calls[i].previous.None? || s.calls[i].previous.value.call in s.settled {
      first := i;
    } else {
      first := FirstUnsettled(s, s.calls[i].previous.value.call);
    }
  }

  /** While a call waits, its key has a task running or a step that moves the queue on. */
  lemma QueueMovesOn(steps: seq<Step>, i: nat) returns (step: Step)
    requires Run(steps).Some? && i < |Run(steps).value.calls| && Run(steps).value.calls[i].phase.Waiting?
    ensures step.SettleChain? || step.StartTask? || step.FinishTask?
    ensures Enabled(Run(steps).value, step)
    ensures Run(steps).value.calls[step.call].key == Run(steps).value.calls[i].key && step.call <= i
  {
    Reachable(steps);
    var s := Run(steps).value;
    assert LinkedAt(s, i);
    var first := FirstUnsettled(s, i);
    step := match s.calls[first].phase
      case Waiting => StartTask(first)
      case Running => FinishTask(first, false)
      case Released => SettleChain(first);
  }

  /** The steps that calls `0..n` still have ahead of them. */
  function Work(s: State, n: nat): nat
    requires n <= |s.calls|
  {
    if n == 0 then 0
    else
      Work(s, n - 1) +
      match s.calls[n - 1].phase
      case Waiting => 3
      case Running => 2
      case Released => if n - 1 in s.settled then 0 else 1
  }

  lemma {:induction false} WorkElsewhere(s: State, t: State, n: nat, c: nat)
    requires n <= |s.calls| == |t.calls| && c < |s.calls|
    requires forall k :: 0 <= k < |s.calls| && k != c ==> s.calls[k] == t.calls[k] && (k in s.settled <==> k in t.settled)
    ensures n <= c ==> Work(t, n) == Work(s, n)
    ensures c < n ==> Work(t, n) - Work(s, n) == Work(t, c + 1) - Work(s, c + 1)
  {
    if n > 0 && n - 1 != c {
      WorkElsewhere(s, t, n - 1, c);
    }
  }

  /** Every step but a new call uses up some work, so without new calls every call is released after finitely many. */
  lemma StepsUseUpWork(s: State, step: Step)
    requires Linked(s) && Enabled(s, step) && !step.Enqueue?
    ensures |Apply(s, step).calls| == |s.calls|
    ensures Work(Apply(s, step), |s.calls|) < Work(s, |s.calls|)
  {
    var t, c := Apply(s, step), step.call;
    assert LinkedAt(s, c);
    WorkElsewhere(s, t, |s.calls|, c);
    WorkElsewhere(s, t, c, c);
  }

  // ----- the entry that is never removed

  /**
   The map stores the chain, never the ticket that the last comparison looks for: the entry of
   a key is never deleted, whatever has finished.
   */
  lemma {:induction false} EntriesAreNeverDeleted(steps: seq<Step>, key: Key)
    requires Run(steps).Some?
    ensures key in Run(steps).value.queues <==> exists k :: 0 <= k < |Run(steps).value.calls| && Run(steps).value.calls[k].key == key
    ensures forall c :: Lookup(Run(steps).value.queues, key) != Some(Ticket(c))
  {
    Reachable(steps);
    var s := Run(steps).value;
    assert IsPrevious(s, key, |s.calls|, Lookup(s.queues, key));
  }
}
