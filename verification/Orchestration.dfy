/**
 The orchestrator's cycles: lease and wake every ready session once per cycle, and repeat
 cycles until idle, interrupted, timed out or out of cycles.
 */
module Orchestration {
  import opened Options
  import opened WakeJournal
  import opened WakeIndex
  import opened SessionWakeQueues
  import opened WakeConservation
  import opened Activations
  import opened ActivationClaims
  import opened ActivationQueue
  import opened WakeSession

  /** The environment of a run: what each look sees and what happens around each wake. */
  datatype Surroundings = Surroundings(env: Environment, worlds: nat -> World, replay: bool, replayDelay: int)

  /** How far a run has read into its surroundings. */
  datatype Position = Position(look: nat, wake: nat)

  function CountExecuted(results: seq<WakeResult>): nat {
    if results == [] then 0
    else CountExecuted(results[..|results| - 1]) + if WasExecuted(results[|results| - 1]) then 1 else 0
  }

  ghost predicate Distinct(sessions: seq<SessionId>) {
    forall i, j :: 0 <= i < j < |sessions| ==> sessions[i] != sessions[j]
  }

  /** The sessions a cycle has attempted, each either woken or reported blocked, and no two equal. */
  ghost predicate AttemptedOnce(attempted: set<SessionId>, woken: seq<SessionId>, blocked: seq<SessionId>) {
    && Distinct(woken + blocked)
    && forall s :: s in attempted <==> s in woken || s in blocked
  }

  // ----- one wake of a cycle

  /**
   What a wake of a cycle was given and did: the activation it was granted at a look that excluded
   the sessions attempted before and those refused since, and the queue before and after it.
   */
  datatype WakeRecord = WakeRecord(
    activation: Activation, look: nat, excluded: set<SessionId>, before: QueueState, after: QueueState,
    result: WakeResult, completed: seq<Wake>, trace: Trace)

  /** The activation was the best one left, and its lease was granted. */
  ghost predicate WasGranted(rec: WakeRecord, env: Environment, allowed: Option<set<SessionId>>) {
    IsBest(env.snapshots(rec.look), allowed, rec.excluded, rec.activation) && env.acquires(rec.look)
  }

  /** The wake was made for the activation's session in the `n`-th world, with the activation's due wakes in hand if it is for wakes. */
  ghost predicate WokeAs(rec: WakeRecord, around: Surroundings, n: nat) {
    && FreshIds(rec.before) && !rec.result.Contended?
    && WakeOutcome(rec.before, rec.after, rec.activation.sessionId,
         if rec.activation.kind.QueuedWake? then rec.activation.dueWakes else [],
         around.worlds(n), around.replay, around.replayDelay, rec.result.run, rec.completed, rec.trace)
    && (rec.result.CloseThrew? <==> ClosingFails(around.worlds(n), rec.result.run))
  }

  /** Only the wakes change the queue: each starts where the one before it ended. */
  ghost predicate Chained(wakes: seq<WakeRecord>, first: QueueState, last: QueueState) {
    if wakes == [] then first == last
    else
      var rec := wakes[|wakes| - 1];
      rec.after == last && Chained(wakes[..|wakes| - 1], first, rec.before)
  }

  /** The `k`-th wake was granted its activation and made for it in world `from + k`. */
  ghost predicate WokenAt(
      wakes: seq<WakeRecord>, k: nat, around: Surroundings, allowed: Option<set<SessionId>>, from: nat)
    requires k < |wakes|
  {
    WasGranted(wakes[k], around.env, allowed) && WokeAs(wakes[k], around, from + k)
  }

  ghost predicate AllWoken(wakes: seq<WakeRecord>, around: Surroundings, allowed: Option<set<SessionId>>, from: nat) {
    forall k :: 0 <= k < |wakes| ==> WokenAt(wakes, k, around, allowed, from)
  }

  ghost predicate Lists(wakes: seq<WakeRecord>, woken: seq<SessionId>, results: seq<WakeResult>) {
    && |wakes| == |woken| == |results|
    && forall k :: 0 <= k < |wakes| ==> wakes[k].activation.sessionId == woken[k] && wakes[k].result == results[k]
  }

  /** The wakes of a cycle, in order, with the sessions woken and the results. */
  ghost predicate Wakes(
      wakes: seq<WakeRecord>, woken: seq<SessionId>, results: seq<WakeResult>,
      around: Surroundings, allowed: Option<set<SessionId>>, from: nat, first: QueueState, last: QueueState)
  {
    Lists(wakes, woken, results) && AllWoken(wakes, around, allowed, from) && Chained(wakes, first, last)
  }

  lemma OneMoreWake(
      wakes: seq<WakeRecord>, woken: seq<SessionId>, results: seq<WakeResult>,
      around: Surroundings, allowed: Option<set<SessionId>>, from: nat, n: nat, first: QueueState, last: QueueState, rec: WakeRecord)
    requires Wakes(wakes, woken, results, around, allowed, from, first, last) && rec.before == last
    requires WasGranted(rec, around.env, allowed) && WokeAs(rec, around, n) && n == from + |wakes|
    ensures Wakes(wakes + [rec], woken + [rec.activation.sessionId], results + [rec.result],
              around, allowed, from, first, rec.after)
  {
    ListsNext(wakes, woken, results, rec);
    ChainedNext(wakes, first, last, rec);
    AllWokenNext(wakes, around, allowed, from, n, rec);
  }

  lemma ListsNext(wakes: seq<WakeRecord>, woken: seq<SessionId>, results: seq<WakeResult>, rec: WakeRecord)
    requires Lists(wakes, woken, results)
    ensures Lists(wakes + [rec], woken + [rec.activation.sessionId], results + [rec.result])
  {
  }

  lemma ChainedNext(wakes: seq<WakeRecord>, first: QueueState, last: QueueState, rec: WakeRecord)
    requires Chained(wakes, first, last) && rec.before == last
    ensures Chained(wakes + [rec], first, rec.after)
  {
    assert (wakes + [rec])[..|wakes|] == wakes;
  }

  lemma AllWokenNext(
      wakes: seq<WakeRecord>, around: Surroundings, allowed: Option<set<SessionId>>, from: nat, n: nat, rec: WakeRecord)
    requires AllWoken(wakes, around, allowed, from)
    requires WasGranted(rec, around.env, allowed) && WokeAs(rec, around, n) && n == from + |wakes|
    ensures AllWoken(wakes + [rec], around, allowed, from)
  {
    var all := wakes + [rec];
    forall k | 0 <= k < |all| ensures WokenAt(all, k, around, allowed, from) {
      assert k < |wakes| ==> all[k] == wakes[k] && WokenAt(wakes, k, around, allowed, from);
    }
  }

  // ----- one cycle

  /** What a cycle has done so far: attempts, results and its count agree. */
  ghost predicate CycleSoFar(
      attempted: set<SessionId>, woken: seq<SessionId>, blocked: seq<SessionId>,
      results: seq<WakeResult>, executed: nat, at: Position, next: Position) {
    && AttemptedOnce(attempted, woken, blocked)
    && |results| == |woken| && executed == CountExecuted(results)
    && next.look >= at.look && next.wake == at.wake + |woken|
  }

  /** The variables of a cycle. */
  datatype CycleState = CycleState(
    attempted: set<SessionId>, woken: seq<SessionId>, blocked: seq<SessionId>, results: seq<WakeResult>,
    executed: nat, next: Position)

  /** The cycle so far, with its wakes. */
  ghost predicate CycleNow(
      c: CycleState, at: Position, wakes: seq<WakeRecord>,
      around: Surroundings, allowed: Option<set<SessionId>>, first: QueueState, last: QueueState)
  {
    && CycleSoFar(c.attempted, c.woken, c.blocked, c.results, c.executed, at, c.next) && c.attempted <= around.env.universe
    && Wakes(wakes, c.woken, c.results, around, allowed, at.wake, first, last)
  }

  lemma AttemptDistinct(attempted: set<SessionId>, woken: seq<SessionId>, blocked: seq<SessionId>, s: SessionId)
    requires AttemptedOnce(attempted, woken, blocked) && s !in attempted
    ensures AttemptedOnce(attempted + {s}, woken + [s], blocked)
    ensures AttemptedOnce(attempted + {s}, woken, blocked + [s])
  {
    var all := woken + blocked;
    assert forall k :: 0 <= k < |all| ==> all[k] in attempted;
    var first := woken + [s] + blocked;
    forall i, j | 0 <= i < j < |first| ensures first[i] != first[j] {
      assert i < |woken| ==> first[i] == all[i];
      assert i > |woken| ==> first[i] == all[i - 1];
      assert j < |woken| ==> first[j] == all[j];
      assert j > |woken| ==> first[j] == all[j - 1];
    }
    assert woken + (blocked + [s]) == all + [s];
  }

  lemma AttemptBlocked(
      attempted: set<SessionId>, woken: seq<SessionId>, blocked: seq<SessionId>,
      results: seq<WakeResult>, executed: nat, at: Position, next: Position, s: SessionId)
    requires CycleSoFar(attempted, woken, blocked, results, executed, at, next) && s !in attempted
    ensures CycleSoFar(attempted + {s}, woken, blocked + [s], results, executed, at, next)
  {
    AttemptDistinct(attempted, woken, blocked, s);
  }

  lemma AttemptWoken(
      attempted: set<SessionId>, woken: seq<SessionId>, blocked: seq<SessionId>,
      results: seq<WakeResult>, executed: nat, at: Position, next: Position, s: SessionId, result: WakeResult)
    requires CycleSoFar(attempted, woken, blocked, results, executed, at, next) && s !in attempted
    ensures CycleSoFar(attempted + {s}, woken + [s], blocked, results + [result],
              executed + if WasExecuted(result) then 1 else 0, at, next.(wake := next.wake + 1))
  {
    AttemptDistinct(attempted, woken, blocked, s);
    assert (results + [result])[..|results|] == results;
  }

  lemma AttemptedInAll(
      attempted: set<SessionId>, woken: seq<SessionId>, blocked: seq<SessionId>, universe: set<SessionId>)
    requires AttemptedOnce(attempted, woken, blocked) && attempted <= universe
    ensures attempted == set s | s in woken + blocked
    ensures forall s :: s in woken || s in blocked ==> s in universe
  {
  }

  /** One call of the lease function, with what a cycle needs to know of it. */
  method LeaseOutside(
      journal: ActivationJournal, env: Environment, allowed: Option<set<SessionId>>, attempted: set<SessionId>, look: nat)
    returns (leased: LeaseResult, looks: nat, ghost excluded: set<SessionId>)
    requires journal.Valid() && EnvironmentOk(env, allowed)
    modifies journal
    ensures journal.Valid() && looks > 0 && attempted <= excluded
    ensures leased.LeaseGranted? && leased.lease.activation.Some? ==>
              && IsBest(env.snapshots(look + looks - 1), allowed, excluded, leased.lease.activation.value)
              && env.acquires(look + looks - 1)
    ensures leased.NothingReady? ==> looks == 1 && Exhausted(env.snapshots(look), allowed, attempted + env.snapshots(look).leased)
    ensures leased.LeaseBlocked? ==> leased.activation.sessionId in env.universe - attempted
    ensures leased.LeaseGranted? ==>
      && leased.lease.activation.Some? && leased.lease.activation.value.sessionId in env.universe - attempted
      && fresh(leased.lease) && leased.lease.Valid() && !leased.lease.closed && leased.lease.journal == journal
      && journal.open == old(journal.open) + {leased.lease.claimId} && leased.lease.claimId !in old(journal.open)
    ensures !leased.LeaseGranted? ==> journal.open == old(journal.open)
  {
    var contended;
    leased, contended := LeaseNextActivation(journal, env, allowed, attempted, look);
    LeasedAmongUniverse(env, allowed, attempted, look, leased, contended);
    looks := |contended| + 1;
    excluded := attempted + env.snapshots(look).leased + Sessions(contended);
    if leased.NothingReady? {
      assert attempted + env.snapshots(look).leased + Sessions(contended) == attempted + env.snapshots(look).leased;
    }
  }

  /**
   One cycle. It ends when a look finds nothing outside the sessions it attempted and those
   leased elsewhere; every lease it took has been closed; no session is woken twice, and one
   reported blocked is not woken later in the cycle. Every lease granted is used for a wake of
   its session, the `k`-th in world `at.wake + k`, and only the wakes change the queue.
   */
  method ExecuteReadyActivationsForCycle(
      q: SessionWakeQueue, journal: ActivationJournal, around: Surroundings,
      allowed: Option<set<SessionId>>, at: Position)
    returns (executed: nat, woken: seq<SessionId>, blocked: seq<SessionId>, results: seq<WakeResult>, next: Position,
             ghost wakes: seq<WakeRecord>)
    requires q.Valid() && journal.Valid() && EnvironmentOk(around.env, allowed)
    modifies q, journal
    ensures q.Valid() && journal.Valid() && journal.open == old(journal.open)
    ensures Wakes(wakes, woken, results, around, allowed, at.wake, old(q.State()), q.State())
    ensures Distinct(woken + blocked)
    ensures forall s :: s in woken || s in blocked ==> s in around.env.universe
    ensures |results| == |woken| && executed == CountExecuted(results)
    ensures next.look > at.look && next.wake == at.wake + |woken|
    ensures Exhausted(around.env.snapshots(next.look - 1), allowed,
              (set s | s in woken + blocked) + around.env.snapshots(next.look - 1).leased)
  {
    var c, done := CycleState({}, [], [], [], 0, at), false;
    wakes := [];
    while !done
      invariant q.Valid() && journal.Valid() && journal.open == old(journal.open)
      invariant CycleNow(c, at, wakes, around, allowed, old(q.State()), q.State())
      invariant done ==> Finds(around, allowed, c, at)
      decreases !done, around.env.universe - c.attempted
    {
      c, done, wakes := LeaseAndWake(q, journal, around, allowed, at, c, wakes, old(q.State()));
    }
    AttemptedInAll(c.attempted, c.woken, c.blocked, around.env.universe);
    return c.executed, c.woken, c.blocked, c.results, c.next, wakes;
  }

  /** The last look found nothing outside the sessions attempted and those leased elsewhere. */
  ghost predicate Finds(around: Surroundings, allowed: Option<set<SessionId>>, c: CycleState, at: Position) {
    && c.next.look > at.look
    && Exhausted(around.env.snapshots(c.next.look - 1), allowed, c.attempted + around.env.snapshots(c.next.look - 1).leased)
  }

  /** One round of a cycle: nothing left, one more session blocked, or one more session woken. */
  method LeaseAndWake(
      q: SessionWakeQueue, journal: ActivationJournal, around: Surroundings, allowed: Option<set<SessionId>>,
      ghost at: Position, c: CycleState, ghost wakes: seq<WakeRecord>, ghost first: QueueState)
    returns (c': CycleState, done: bool, ghost all: seq<WakeRecord>)
    requires q.Valid() && journal.Valid() && EnvironmentOk(around.env, allowed)
    requires CycleNow(c, at, wakes, around, allowed, first, q.State())
    modifies q, journal
    ensures q.Valid() && journal.Valid() && journal.open == old(journal.open)
    ensures CycleNow(c', at, all, around, allowed, first, q.State())
    ensures if done then Finds(around, allowed, c', at)
            else around.env.universe - c'.attempted < around.env.universe - c.attempted
  {
    var leased, looks, excluded := LeaseOutside(journal, around.env, allowed, c.attempted, c.next.look);
    var looked := c.(next := c.next.(look := c.next.look + looks));
    LookedOn(c, looks, at, wakes, around, allowed, first, q.State());
    if leased.NothingReady? {
      return looked, true, wakes;
    }
    if leased.LeaseBlocked? {
      c' := Block(looked, leased.activation.sessionId, at, wakes, around, allowed, first, q.State());
      return c', false, wakes;
    }
    var activation := leased.lease.activation.value;
    c', all := WakeNext(q, leased.lease, activation, around, allowed, looked.next.look - 1, excluded, at, looked, wakes, first);
    done := false;
  }

  lemma LookedOn(
      c: CycleState, looks: nat, at: Position, wakes: seq<WakeRecord>,
      around: Surroundings, allowed: Option<set<SessionId>>, first: QueueState, last: QueueState)
    requires CycleNow(c, at, wakes, around, allowed, first, last)
    ensures CycleNow(c.(next := c.next.(look := c.next.look + looks)), at, wakes, around, allowed, first, last)
  {
  }

  method Block(
      c: CycleState, s: SessionId, ghost at: Position, ghost wakes: seq<WakeRecord>,
      ghost around: Surroundings, ghost allowed: Option<set<SessionId>>, ghost first: QueueState, ghost last: QueueState)
    returns (c': CycleState)
    requires CycleNow(c, at, wakes, around, allowed, first, last) && s in around.env.universe - c.attempted
    ensures c'.attempted == c.attempted + {s} && CycleNow(c', at, wakes, around, allowed, first, last)
  {
    AttemptBlocked(c.attempted, c.woken, c.blocked, c.results, c.executed, at, c.next, s);
    c' := c.(attempted := c.attempted + {s}, blocked := c.blocked + [s]);
  }

  /** The session of a lease result lies in the universe and was not excluded. */
  lemma LeasedAmongUniverse(
      env: Environment, allowed: Option<set<SessionId>>, exclude: set<SessionId>, start: nat,
      result: LeaseResult, contended: seq<Activation>)
    requires EnvironmentOk(env, allowed)
    requires Searched(env, allowed, start, exclude + env.snapshots(start).leased, contended)
    ensures contended != [] ==>
      contended[|contended| - 1].sessionId in env.universe - exclude
    ensures forall a :: IsBest(env.snapshots(start + |contended|), allowed,
                          exclude + env.snapshots(start).leased + Sessions(contended), a) ==>
      a.sessionId in env.universe - exclude
  {
    if contended != [] {
      var n := |contended| - 1;
      assert IsBest(env.snapshots(start + n), allowed, exclude + env.snapshots(start).leased + Sessions(contended[..n]), contended[n]);
    }
  }

  /** A wake for an activation whose lease was granted. */
  method Wake(
      q: SessionWakeQueue, lease: WakeLease, activation: Activation, around: Surroundings, n: nat,
      ghost look: nat, ghost excluded: set<SessionId>)
    returns (result: WakeResult, ghost rec: WakeRecord)
    requires q.Valid() && lease.Valid() && !lease.closed && lease.journal != null
    modifies q, lease, lease.journal
    ensures q.Valid() && lease.journal.Valid()
    ensures rec == WakeRecord(activation, look, excluded, old(q.State()), q.State(), result, rec.completed, rec.trace)
    ensures WokeAs(rec, around, n)
    ensures lease.closed && lease.releases == 1
    ensures lease.journal.open == old(lease.journal.open) - {lease.claimId}
    ensures result.Ran? ==> ClaimTells(Word(lease.journal.records, lease.claimId), result.run)
  {
    ghost var before := q.State();
    ValidIsFresh(q);
    var prefetched := if activation.kind.QueuedWake? then activation.dueWakes else [];
    var used, completed;
    ghost var trace;
    result, used, completed, trace :=
      WakeSessionOnce(q, activation.sessionId, lease, prefetched, around.worlds(n), around.replay, around.replayDelay);
    rec := WakeRecord(activation, look, excluded, before, q.State(), result, completed, trace);
  }

  /** One more wake of a cycle, for the activation it was granted. */
  method WakeNext(
      q: SessionWakeQueue, lease: WakeLease, activation: Activation, around: Surroundings,
      ghost allowed: Option<set<SessionId>>, ghost look: nat, ghost excluded: set<SessionId>,
      ghost at: Position, c: CycleState, ghost wakes: seq<WakeRecord>, ghost first: QueueState)
    returns (c': CycleState, ghost all: seq<WakeRecord>)
    requires q.Valid() && lease.Valid() && !lease.closed && lease.journal != null
    requires CycleNow(c, at, wakes, around, allowed, first, q.State())
    requires activation.sessionId in around.env.universe - c.attempted
    requires IsBest(around.env.snapshots(look), allowed, excluded, activation) && around.env.acquires(look)
    modifies q, lease, lease.journal
    ensures q.Valid() && lease.journal.Valid()
    ensures c'.attempted == c.attempted + {activation.sessionId} && CycleNow(c', at, all, around, allowed, first, q.State())
    ensures lease.journal.open == old(lease.journal.open) - {lease.claimId}
  {
    var result, rec := Wake(q, lease, activation, around, c.next.wake, look, excluded);
    CycleWoken(c, at, wakes, around, allowed, first, rec.before, rec);
    c', all := WithWoken(c, activation.sessionId, result), wakes + [rec];
  }

  function WithWoken(c: CycleState, s: SessionId, result: WakeResult): CycleState {
    CycleState(c.attempted + {s}, c.woken + [s], c.blocked, c.results + [result],
      c.executed + if WasExecuted(result) then 1 else 0, c.next.(wake := c.next.wake + 1))
  }

  lemma CycleWoken(
      c: CycleState, at: Position, wakes: seq<WakeRecord>, around: Surroundings, allowed: Option<set<SessionId>>,
      first: QueueState, last: QueueState, rec: WakeRecord)
    requires CycleNow(c, at, wakes, around, allowed, first, last) && rec.before == last
    requires rec.activation.sessionId in around.env.universe - c.attempted
    requires WasGranted(rec, around.env, allowed) && WokeAs(rec, around, c.next.wake)
    ensures CycleNow(WithWoken(c, rec.activation.sessionId, rec.result), at, wakes + [rec], around, allowed, first, rec.after)
  {
    OneMoreWake(wakes, c.woken, c.results, around, allowed, at.wake, c.next.wake, first, last, rec);
    AttemptWoken(c.attempted, c.woken, c.blocked, c.results, c.executed, at, c.next, rec.activation.sessionId, rec.result);
  }

  // ----- the agent loop

  datatype LoopOptions = LoopOptions(
    maxCycles: Option<nat>, stopWhenIdle: Option<bool>, watch: bool, idleTimeoutMs: Option<int>)

  /** `StillRunning` is a loop without a limit, followed only so far. */
  datatype StopReason = StoppedIdle | StoppedMaxCycles | StoppedIdleTimeout | StoppedInterrupted | StillRunning

  /** The signals and clocks of a loop, by cycle. */
  datatype Signals = Signals(aborted: nat -> bool, waitAborted: nat -> bool, idleExpired: nat -> bool)

  const DEFAULT_MAX_CYCLES := 10

  function CycleLimit(options: LoopOptions): Option<nat> {
    if options.maxCycles.Some? then options.maxCycles
    else if options.watch then None else Some(DEFAULT_MAX_CYCLES)
  }

  /** What one pass over the ready sessions did, from a position up to the look that found nothing more. */
  datatype PassRecord = PassRecord(
    woken: seq<SessionId>, blocked: seq<SessionId>, results: seq<WakeResult>, look: nat,
    from: nat, wakes: seq<WakeRecord>, before: QueueState, after: QueueState)

  /**
   The pass attempted each session once and ended with nothing ready outside those and the leased
   ones; its wakes are those of the sessions it lists.
   */
  ghost predicate Complete(pass: PassRecord, around: Surroundings, allowed: Option<set<SessionId>>) {
    && Distinct(pass.woken + pass.blocked)
    && Wakes(pass.wakes, pass.woken, pass.results, around, allowed, pass.from, pass.before, pass.after)
    && Exhausted(around.env.snapshots(pass.look), allowed,
         (set s | s in pass.woken + pass.blocked) + around.env.snapshots(pass.look).leased)
  }

  /** The passes follow on each other: each is complete, and starts where the one before it ended. */
  ghost predicate PassesFrom(
      passes: seq<PassRecord>, around: Surroundings, allowed: Option<set<SessionId>>, first: QueueState, last: QueueState, wakes: nat)
    decreases |passes|
  {
    if passes == [] then first == last && wakes == 0
    else
      var pass := passes[|passes| - 1];
      && Complete(pass, around, allowed) && pass.after == last && wakes == pass.from + |pass.wakes|
      && PassesFrom(passes[..|passes| - 1], around, allowed, first, pass.before, pass.from)
  }

  function TotalExecuted(passes: seq<PassRecord>): nat {
    if passes == [] then 0 else TotalExecuted(passes[..|passes| - 1]) + CountExecuted(passes[|passes| - 1].results)
  }

  lemma OneMorePass(
      passes: seq<PassRecord>, pass: PassRecord, around: Surroundings, allowed: Option<set<SessionId>>, first: QueueState)
    requires PassesFrom(passes, around, allowed, first, pass.before, pass.from) && Complete(pass, around, allowed)
    ensures PassesFrom(passes + [pass], around, allowed, first, pass.after, pass.from + |pass.wakes|)
    ensures TotalExecuted(passes + [pass]) == TotalExecuted(passes) + CountExecuted(pass.results)
  {
    assert (passes + [pass])[..|passes|] == passes;
  }

  // ----- when the loop stops

  /** The passes of one cycle: the second is made when a watch has been idle too long. */
  datatype CycleRecord = CycleRecord(first: PassRecord, second: Option<PassRecord>)

  ghost predicate IdlePass(pass: PassRecord) {
    forall k :: 0 <= k < |pass.results| ==> !(pass.results[k].Ran? && pass.results[k].run.Executed?)
  }

  ghost predicate IdleStop(options: LoopOptions, c: CycleRecord) {
    IdlePass(c.first) && if options.watch then options.stopWhenIdle == Some(true) else options.stopWhenIdle != Some(false)
  }

  /** A watch that has been idle too long, and is not to stop at once, looks a second time. */
  ghost predicate LooksAgain(options: LoopOptions, signals: Signals, n: nat, c: CycleRecord) {
    options.watch && IdlePass(c.first) && options.stopWhenIdle != Some(true) && options.idleTimeoutMs.Some? && signals.idleExpired(n)
  }

  ghost predicate TimeoutStop(c: CycleRecord) {
    c.second.Some? && IdlePass(c.second.value)
  }

  ghost predicate WaitStop(options: LoopOptions, signals: Signals, n: nat, c: CycleRecord) {
    options.watch && !IdleStop(options, c) && !TimeoutStop(c) && signals.waitAborted(n)
  }

  /** The `n`-th cycle, counted from one, leaves nothing that stops the loop. */
  ghost predicate GoesOn(options: LoopOptions, signals: Signals, n: nat, c: CycleRecord) {
    !IdleStop(options, c) && !TimeoutStop(c) && !WaitStop(options, signals, n, c)
  }

  /** The cycle did not begin after an abort, and looked again exactly when it had to. */
  ghost predicate MadeWell(options: LoopOptions, signals: Signals, made: seq<CycleRecord>, k: nat)
    requires k < |made|
  {
    !signals.aborted(k) && (made[k].second.Some? <==> LooksAgain(options, signals, k + 1, made[k]))
  }

  ghost predicate CyclesMade(options: LoopOptions, signals: Signals, made: seq<CycleRecord>) {
    forall k :: 0 <= k < |made| ==> MadeWell(options, signals, made, k)
  }

  ghost predicate WentOn(options: LoopOptions, signals: Signals, made: seq<CycleRecord>, k: nat)
    requires k < |made|
  {
    GoesOn(options, signals, k + 1, made[k])
  }

  ghost predicate AllWentOn(options: LoopOptions, signals: Signals, made: seq<CycleRecord>) {
    forall k :: 0 <= k < |made| ==> WentOn(options, signals, made, k)
  }

  /** The number of cycles allowed: what was asked for, or ten, or in a watch any number. */
  predicate WithinLimit(options: LoopOptions, cycles: nat) {
    if options.maxCycles.Some? then cycles <= options.maxCycles.value else options.watch || cycles <= 10
  }

  predicate AtLimit(options: LoopOptions, cycles: nat) {
    if options.maxCycles.Some? then cycles == options.maxCycles.value else !options.watch && cycles == 10
  }

  /** Why the loop stopped: every reason applies exactly in its own case, and the earlier cycles gave no reason. */
  ghost predicate StopsFor(options: LoopOptions, signals: Signals, horizon: nat, made: seq<CycleRecord>, stop: StopReason) {
    var n := |made|;
    && CyclesMade(options, signals, made) && WithinLimit(options, n)
    && (n > 0 ==> AllWentOn(options, signals, made[..n - 1]))
    && (stop.StoppedIdle? <==> n > 0 && IdleStop(options, made[n - 1]))
    && (stop.StoppedIdleTimeout? <==> n > 0 && TimeoutStop(made[n - 1]))
    && (stop.StoppedInterrupted? <==>
          || (n > 0 && WaitStop(options, signals, n, made[n - 1]))
          || (AllWentOn(options, signals, made) && Followed(options, horizon, n) && signals.aborted(n)))
    && (stop.StoppedMaxCycles? ==> AllWentOn(options, signals, made) && AtLimit(options, n))
    && (stop.StillRunning? ==> AllWentOn(options, signals, made) && options.maxCycles.None? && options.watch && n == horizon)
  }

  /** Another cycle may begin: the limit is not reached, nor in a watch without one what it is followed for. */
  predicate Followed(options: LoopOptions, horizon: nat, cycles: nat) {
    if options.maxCycles.Some? then cycles < options.maxCycles.value
    else if options.watch then cycles < horizon
    else cycles < 10
  }

  function PassesOf(made: seq<CycleRecord>): seq<PassRecord> {
    if made == [] then []
    else
      var c := made[|made| - 1];
      PassesOf(made[..|made| - 1]) + [c.first] + if c.second.Some? then [c.second.value] else []
  }

  /** The loop so far. */
  ghost predicate LoopSoFar(
      options: LoopOptions, signals: Signals, around: Surroundings, allowed: Option<set<SessionId>>,
      first: QueueState, now: QueueState, made: seq<CycleRecord>, executed: nat, wakes: nat)
  {
    && PassesFrom(PassesOf(made), around, allowed, first, now, wakes)
    && executed == TotalExecuted(PassesOf(made))
    && CyclesMade(options, signals, made)
  }

  lemma {:induction false} NoneExecuted(results: seq<WakeResult>)
    ensures CountExecuted(results) == 0 <==>
      forall k :: 0 <= k < |results| ==> !(results[k].Ran? && results[k].run.Executed?)
  {
    if results != [] {
      NoneExecuted(results[..|results| - 1]);
    }
  }

  method Pass(q: SessionWakeQueue, journal: ActivationJournal, around: Surroundings, allowed: Option<set<SessionId>>, at: Position)
    returns (executed: nat, next: Position, ghost pass: PassRecord)
    requires q.Valid() && journal.Valid() && EnvironmentOk(around.env, allowed)
    modifies q, journal
    ensures q.Valid() && journal.Valid() && journal.open == old(journal.open)
    ensures Complete(pass, around, allowed) && executed == CountExecuted(pass.results)
    ensures pass.before == old(q.State()) && pass.after == q.State()
    ensures pass.from == at.wake && next.wake == at.wake + |pass.wakes|
  {
    ghost var before := q.State();
    var woken, blocked, results;
    ghost var wakes;
    executed, woken, blocked, results, next, wakes := ExecuteReadyActivationsForCycle(q, journal, around, allowed, at);
    pass := PassRecord(woken, blocked, results, next.look - 1, at.wake, wakes, before, q.State());
  }

  /** What one cycle adds: its passes follow on each other, and a second one is made exactly when due. */
  ghost predicate CycleRuns(
      options: LoopOptions, signals: Signals, around: Surroundings, allowed: Option<set<SessionId>>, n: nat,
      c: CycleRecord, before: QueueState, after: QueueState, from: nat, wakes: nat)
  {
    && Complete(c.first, around, allowed) && c.first.before == before && c.first.from == from
    && (c.second.Some? <==> LooksAgain(options, signals, n, c))
    && (if c.second.Some? then
          && Complete(c.second.value, around, allowed)
          && c.second.value.before == c.first.after && c.second.value.after == after
          && c.second.value.from == from + |c.first.wakes| && wakes == c.second.value.from + |c.second.value.wakes|
        else c.first.after == after && wakes == from + |c.first.wakes|)
  }

  function ExecutedIn(c: CycleRecord): nat {
    CountExecuted(c.first.results) + if c.second.Some? then CountExecuted(c.second.value.results) else 0
  }

  /** One cycle, and the reason to stop it gives, if any. */
  method RunCycle(
      q: SessionWakeQueue, journal: ActivationJournal, around: Surroundings, allowed: Option<set<SessionId>>,
      options: LoopOptions, signals: Signals, n: nat, at: Position)
    returns (executed: nat, stop: Option<StopReason>, next: Position, ghost c: CycleRecord)
    requires q.Valid() && journal.Valid() && EnvironmentOk(around.env, allowed)
    modifies q, journal
    ensures q.Valid() && journal.Valid() && journal.open == old(journal.open)
    ensures CycleRuns(options, signals, around, allowed, n, c, old(q.State()), q.State(), at.wake, next.wake)
    ensures executed == ExecutedIn(c)
    ensures stop.None? <==> GoesOn(options, signals, n, c)
    ensures stop == Some(StoppedIdle) <==> IdleStop(options, c)
    ensures stop == Some(StoppedIdleTimeout) <==> TimeoutStop(c)
    ensures stop == Some(StoppedInterrupted) <==> WaitStop(options, signals, n, c)
    ensures stop != Some(StoppedMaxCycles) && stop != Some(StillRunning)
  {
    ghost var pass;
    executed, next, pass := Pass(q, journal, around, allowed, at);
    NoneExecuted(pass.results);
    c := CycleRecord(pass, None);
    if !options.watch && executed == 0 && options.stopWhenIdle != Some(false) {
      return executed, Some(StoppedIdle), next, c;
    }
    if options.watch {
      if executed == 0 && options.stopWhenIdle == Some(true) {
        return executed, Some(StoppedIdle), next, c;
      }
      if executed == 0 && options.idleTimeoutMs.Some? && signals.idleExpired(n) {
        executed, next, pass := Pass(q, journal, around, allowed, next);
        NoneExecuted(pass.results);
        c := c.(second := Some(pass));
        if executed == 0 {
          return executed, Some(StoppedIdleTimeout), next, c;
        }
      }
      if signals.waitAborted(n) {
        return executed, Some(StoppedInterrupted), next, c;
      }
    }
    return executed, None, next, c;
  }

  lemma OneMoreCycle(
      options: LoopOptions, signals: Signals, around: Surroundings, allowed: Option<set<SessionId>>,
      first: QueueState, before: QueueState, after: QueueState, made: seq<CycleRecord>, executed: nat, n: nat, from: nat, wakes: nat,
      c: CycleRecord)
    requires LoopSoFar(options, signals, around, allowed, first, before, made, executed, from)
    requires n == |made| && !signals.aborted(n)
    requires CycleRuns(options, signals, around, allowed, n + 1, c, before, after, from, wakes)
    ensures LoopSoFar(options, signals, around, allowed, first, after, made + [c], executed + ExecutedIn(c), wakes)
  {
    OneMoreMade(options, signals, made, c);
    var passes := PassesOf(made);
    OneMorePass(passes, c.first, around, allowed, first);
    if c.second.Some? {
      OneMorePass(passes + [c.first], c.second.value, around, allowed, first);
    }
  }

  lemma OneMoreMade(options: LoopOptions, signals: Signals, made: seq<CycleRecord>, c: CycleRecord)
    requires CyclesMade(options, signals, made) && !signals.aborted(|made|)
    requires c.second.Some? <==> LooksAgain(options, signals, |made| + 1, c)
    ensures CyclesMade(options, signals, made + [c])
    ensures PassesOf(made + [c]) == PassesOf(made) + [c.first] + if c.second.Some? then [c.second.value] else []
    ensures c.second.None? ==> PassesOf(made + [c]) == PassesOf(made) + [c.first]
  {
    assert (made + [c])[..|made|] == made;
    forall k | 0 <= k < |made| + 1 ensures MadeWell(options, signals, made + [c], k) {
      assert k < |made| ==> MadeWell(options, signals, made, k);
    }
  }

  /**
   Never more cycles than the limit; `executed` is the sum over the passes made, one per cycle
   and a second one in a watch cycle whose idle timeout has expired. A watch without a limit may
   run for ever; it is followed for any number `horizon` of cycles.
   */
  method RunAgentLoop(
      q: SessionWakeQueue, journal: ActivationJournal, around: Surroundings, allowed: Option<set<SessionId>>,
      options: LoopOptions, signals: Signals, horizon: nat)
    returns (cycles: nat, executed: nat, stop: StopReason, ghost made: seq<CycleRecord>, ghost wakes: nat)
    requires q.Valid() && journal.Valid() && EnvironmentOk(around.env, allowed)
    modifies q, journal
    ensures q.Valid() && journal.Valid() && journal.open == old(journal.open)
    ensures cycles == |made| && StopsFor(options, signals, horizon, made, stop)
    ensures PassesFrom(PassesOf(made), around, allowed, old(q.State()), q.State(), wakes)
    ensures executed == TotalExecuted(PassesOf(made))
  {
    cycles, executed, made, wakes := 0, 0, [], 0;
    var at := Position(0, 0);
    var limit := CycleLimit(options);
    while cycles < limit.GetOr(horizon)
      invariant q.Valid() && journal.Valid() && journal.open == old(journal.open)
      invariant cycles == |made| <= limit.GetOr(horizon) && wakes == at.wake
      invariant LoopSoFar(options, signals, around, allowed, old(q.State()), q.State(), made, executed, wakes)
      invariant AllWentOn(options, signals, made)
    {
      if signals.aborted(cycles) {
        StopsAborted(options, signals, horizon, made);
        return cycles, executed, StoppedInterrupted, made, wakes;
      }
      var count, reason;
      count, reason, at, made := NextCycle(q, journal, around, allowed, options, signals, horizon, cycles, at, old(q.State()), made, executed);
      cycles, executed, wakes := cycles + 1, executed + count, at.wake;
      if reason.Some? {
        return cycles, executed, reason.value, made, wakes;
      }
    }
    stop := if limit.Some? then StoppedMaxCycles else StillRunning;
    StopsAtLimit(options, signals, horizon, made, stop);
  }

  /** One more cycle within the limit. */
  method NextCycle(
      q: SessionWakeQueue, journal: ActivationJournal, around: Surroundings, allowed: Option<set<SessionId>>,
      options: LoopOptions, signals: Signals, ghost horizon: nat, n: nat, at: Position,
      ghost first: QueueState, ghost made: seq<CycleRecord>, ghost executed: nat)
    returns (count: nat, stop: Option<StopReason>, next: Position, ghost all: seq<CycleRecord>)
    requires q.Valid() && journal.Valid() && EnvironmentOk(around.env, allowed)
    requires LoopSoFar(options, signals, around, allowed, first, q.State(), made, executed, at.wake)
    requires AllWentOn(options, signals, made) && n == |made| < CycleLimit(options).GetOr(horizon) && !signals.aborted(n)
    modifies q, journal
    ensures q.Valid() && journal.Valid() && journal.open == old(journal.open)
    ensures |all| == n + 1 && LoopSoFar(options, signals, around, allowed, first, q.State(), all, executed + count, next.wake)
    ensures if stop.Some? then StopsFor(options, signals, horizon, all, stop.value) else AllWentOn(options, signals, all)
  {
    ghost var before := q.State();
    ghost var c;
    count, stop, next, c := RunCycle(q, journal, around, allowed, options, signals, n + 1, at);
    OneMoreCycle(options, signals, around, allowed, first, before, q.State(), made, executed, n, at.wake, next.wake, c);
    all := made + [c];
    if stop.Some? {
      StopsAfter(options, signals, horizon, made, c, stop.value);
    } else {
      CycleAdds(options, signals, made, c);
    }
  }

  lemma StopsAborted(options: LoopOptions, signals: Signals, horizon: nat, made: seq<CycleRecord>)
    requires CyclesMade(options, signals, made) && AllWentOn(options, signals, made)
    requires |made| < CycleLimit(options).GetOr(horizon) && signals.aborted(|made|)
    ensures StopsFor(options, signals, horizon, made, StoppedInterrupted)
  {
    LastWentOn(options, signals, made);
  }

  lemma LastWentOn(options: LoopOptions, signals: Signals, made: seq<CycleRecord>)
    requires AllWentOn(options, signals, made)
    ensures made != [] ==>
              && AllWentOn(options, signals, made[..|made| - 1])
              && GoesOn(options, signals, |made|, made[|made| - 1])
  {
    if made != [] {
      assert WentOn(options, signals, made, |made| - 1);
      var front := made[..|made| - 1];
      forall k | 0 <= k < |front| ensures WentOn(options, signals, front, k) {
        assert WentOn(options, signals, made, k);
      }
    }
  }

  lemma StopsAfter(
      options: LoopOptions, signals: Signals, horizon: nat, made: seq<CycleRecord>, c: CycleRecord, stop: StopReason)
    requires CyclesMade(options, signals, made + [c]) && AllWentOn(options, signals, made)
    requires |made| < CycleLimit(options).GetOr(horizon) && !GoesOn(options, signals, |made| + 1, c)
    requires stop.StoppedIdle? <==> IdleStop(options, c)
    requires stop.StoppedIdleTimeout? <==> TimeoutStop(c)
    requires stop.StoppedInterrupted? <==> WaitStop(options, signals, |made| + 1, c)
    requires !stop.StoppedMaxCycles? && !stop.StillRunning?
    ensures StopsFor(options, signals, horizon, made + [c], stop)
  {
    CycleAdds(options, signals, made, c);
    assert (made + [c])[|made|] == c;
  }

  lemma StopsAtLimit(options: LoopOptions, signals: Signals, horizon: nat, made: seq<CycleRecord>, stop: StopReason)
    requires CyclesMade(options, signals, made) && AllWentOn(options, signals, made)
    requires |made| == CycleLimit(options).GetOr(horizon)
    requires stop == if CycleLimit(options).Some? then StoppedMaxCycles else StillRunning
    ensures StopsFor(options, signals, horizon, made, stop)
  {
    LastWentOn(options, signals, made);
  }

  lemma CycleAdds(options: LoopOptions, signals: Signals, made: seq<CycleRecord>, c: CycleRecord)
    requires AllWentOn(options, signals, made)
    ensures (made + [c])[..|made|] == made
    ensures AllWentOn(options, signals, made + [c]) <==> GoesOn(options, signals, |made| + 1, c)
  {
    var all := made + [c];
    assert WentOn(options, signals, all, |made|) <==> GoesOn(options, signals, |made| + 1, c);
    forall k | 0 <= k < |made| ensures WentOn(options, signals, all, k) {
      assert WentOn(options, signals, made, k);
    }
  }

  // ----- what a complete pass leaves behind

  /**
   When the last look of a pass reports the due wakes of some journals, every allowed session
   with a wake due in them was attempted in the pass or is leased elsewhere.
   */
  lemma NothingDueLeft(
      pass: PassRecord, around: Surroundings, allowed: Option<set<SessionId>>,
      journals: map<SessionId, seq<Record>>, s: SessionId, v: Wake)
    requires Complete(pass, around, allowed)
    requires IsFullScan(around.env.snapshots(pass.look).due, journals, around.env.snapshots(pass.look).at)
    requires Allowed(s, allowed) && v in Pending(JournalOf(journals, s)) && v.dueAt <= around.env.snapshots(pass.look).at
    ensures s in pass.woken || s in pass.blocked || s in around.env.snapshots(pass.look).leased
  {
    var snap := around.env.snapshots(pass.look);
    if s !in snap.leased {
      var a := DueSessionIsReady(snap, allowed, journals, s, v);
      assert IsReady(snap, allowed, a);
    }
  }

  // ----- what each wake of a pass did

  /** A wake handed to a wake for queued wakes is among those of its activation, which has at least one. */
  lemma GrantedHasWakes(rec: WakeRecord, env: Environment, allowed: Option<set<SessionId>>)
    requires WasGranted(rec, env, allowed)
    ensures rec.activation.kind.QueuedWake? ==> rec.activation.dueWakes != []
  {
  }

  /** A pass skips only sessions it was given for waiting events, with none waiting any more and no wake due. */
  lemma SkippedInPass(pass: PassRecord, around: Surroundings, allowed: Option<set<SessionId>>, k: nat)
    requires Complete(pass, around, allowed) && k < |pass.woken| && !pass.results[k].Contended? && pass.results[k].run.Skipped?
    ensures pass.wakes[k].activation.kind.PendingEvents? && pass.wakes[k].after == pass.wakes[k].before
    ensures around.worlds(pass.from + k).pendingEvents == []
    ensures forall v :: v in PendingIn(pass.wakes[k].before, pass.woken[k]) ==> v.dueAt > around.worlds(pass.from + k).listAt
  {
    assert WokenAt(pass.wakes, k, around, allowed, pass.from);
    var rec := pass.wakes[k];
    GrantedHasWakes(rec, around.env, allowed);
    SkippedHadNothingDue(
      rec.before, rec.after, pass.woken[k], if rec.activation.kind.QueuedWake? then rec.activation.dueWakes else [],
      around.worlds(pass.from + k), around.replay, around.replayDelay, rec.completed, rec.trace);
  }

  /** Whichever session a pass executes, its due wakes are not pending under their ids when its wake ends. */
  lemma ExecutedInPass(pass: PassRecord, around: Surroundings, allowed: Option<set<SessionId>>, k: nat, v: Wake)
    requires Complete(pass, around, allowed) && k < |pass.woken| && !pass.results[k].Contended? && pass.results[k].run.Executed?
    requires v in PendingIn(pass.wakes[k].before, pass.woken[k])
    requires
      var a := pass.wakes[k].activation;
      if a.kind.QueuedWake? then v in a.dueWakes else v.dueAt <= around.worlds(pass.from + k).consumeAt
    ensures forall x :: x in PendingIn(pass.wakes[k].after, pass.woken[k]) ==> x.id != v.id
  {
    assert WokenAt(pass.wakes, k, around, allowed, pass.from);
    var rec := pass.wakes[k];
    GrantedHasWakes(rec, around.env, allowed);
    ExecutedWakesAreGone(
      rec.before, rec.after, pass.woken[k], if rec.activation.kind.QueuedWake? then rec.activation.dueWakes else [],
      around.worlds(pass.from + k), around.replay, around.replayDelay, rec.result.run, rec.completed, rec.trace, v);
  }

  /** The count of a pass is the number of its wakes that were executed and whose closing did not fail. */
  lemma {:induction false} CountIsOfExecuted(results: seq<WakeResult>)
    ensures CountExecuted(results) == |set k | 0 <= k < |results| && results[k].Ran? && results[k].run.Executed?|
  {
    var all := set k | 0 <= k < |results| && results[k].Ran? && results[k].run.Executed?;
    if results == [] {
      assert all == {};
    } else {
      var n := |results| - 1;
      CountIsOfExecuted(results[..n]);
      var front := set k | 0 <= k < |results[..n]| && results[..n][k].Ran? && results[..n][k].run.Executed?;
      assert n !in front;
      if results[n].Ran? && results[n].run.Executed? {
        assert all == front + {n};
      } else {
        assert all == front;
      }
    }
  }

  /** A wait of `ms` would pass the bound, where there is one. */
  predicate Oversleeps(ms: int, bound: Option<int>) {
    bound.Some? && ms > bound.value
  }

  /** The longest wait of at least a millisecond that oversleeps none of the bounds. */
  function ResolveWatchSleepMs(pollIntervalMs: int, untilDue: Option<int>, idleLeft: Option<int>): (ms: int)
    ensures ms >= 1
    ensures ms > 1 ==> ms <= pollIntervalMs && !Oversleeps(ms, untilDue) && !Oversleeps(ms, idleLeft)
    ensures ms + 1 > pollIntervalMs || Oversleeps(ms + 1, untilDue) || Oversleeps(ms + 1, idleLeft)
  {
    if untilDue.Some? && untilDue.value <= 0 then 1
    else if idleLeft.Some? && idleLeft.value <= 0 then 1
    else
      var a := if untilDue.Some? && untilDue.value < pollIntervalMs then untilDue.value else pollIntervalMs;
      var b := if idleLeft.Some? && idleLeft.value < a then idleLeft.value else a;
      if b < 1 then 1 else b
  }
}
