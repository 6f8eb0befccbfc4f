/**
 What a list of enqueues does to the pending wakes when any of them may throw, before its append
 or, for want of the index lock, after it; and when a list stopped short still loses nothing.
 */
module WakeConservation {
  import opened Options
  import opened Sorting
  import opened WakeJournal
  import opened WakeIndex
  import opened SessionWakeQueues

  /**
   What goes wrong in a loop of enqueues: the one that throws before its append, and those for
   which the index lock would not be obtained, if they come to need it.
   */
  datatype Faults = Faults(beforeAppend: Option<nat>, lock: nat -> bool)

  const NO_FAULTS := Faults(None, _ => false)

  datatype Stop = Finished | ThrewBefore | ThrewAfter

  function EnqueueAllInto(st: QueueState, inputs: seq<WakeInput>, now: Time): QueueState {
    if inputs == [] then st
    else EnqueueInto(EnqueueAllInto(st, inputs[..|inputs| - 1], now), inputs[|inputs| - 1], now)
  }

  /** The `k`-th enqueue appends and then does not obtain the lock. */
  predicate LockFault(st: QueueState, inputs: seq<WakeInput>, faults: Faults, now: Time, k: nat)
    requires k < |inputs|
  {
    faults.lock(k) && Appends(EnqueueAllInto(st, inputs[..k], now), inputs[k])
  }

  predicate Fault(st: QueueState, inputs: seq<WakeInput>, faults: Faults, now: Time, k: nat)
    requires k < |inputs|
  {
    faults.beforeAppend == Some(k) || LockFault(st, inputs, faults, now, k)
  }

  /** The loop stopped at its first fault; `n` enqueues took effect. */
  predicate Progress(st: QueueState, inputs: seq<WakeInput>, faults: Faults, now: Time, n: nat, stop: Stop) {
    && n <= |inputs|
    && match stop
       case Finished => n == |inputs| && forall k :: 0 <= k < n ==> !Fault(st, inputs, faults, now, k)
       case ThrewBefore =>
         && n < |inputs| && faults.beforeAppend == Some(n)
         && forall k :: 0 <= k < n ==> !Fault(st, inputs, faults, now, k)
       case ThrewAfter =>
         && n > 0 && faults.beforeAppend != Some(n - 1) && LockFault(st, inputs, faults, now, n - 1)
         && forall k :: 0 <= k < n - 1 ==> !Fault(st, inputs, faults, now, k)
  }

  // ----- what enqueues add

  function AsInput(w: Wake): WakeInput {
    WakeInput(w.sessionId, w.dueAt, w.reason, w.note, w.dedupeKey, w.priority)
  }

  /** The requests of the pending wakes that hold no key, with their multiplicity. */
  function KeylessOf(pending: seq<Wake>): multiset<WakeInput> {
    if pending == [] then multiset{}
    else
      var last := pending[|pending| - 1];
      KeylessOf(pending[..|pending| - 1]) + if Truthy(last.dedupeKey) then multiset{} else multiset{AsInput(last)}
  }

  /** The requests for session `t` that hold no key, with their multiplicity. */
  function KeylessInputs(inputs: seq<WakeInput>, t: SessionId): multiset<WakeInput> {
    if inputs == [] then multiset{}
    else KeylessInputs(inputs[..|inputs| - 1], t) + KeylessOne(inputs[|inputs| - 1], t)
  }

  function KeylessOne(x: WakeInput, t: SessionId): multiset<WakeInput> {
    if x.sessionId != t || Truthy(x.dedupeKey) then multiset{} else multiset{x}
  }

  function PendingIn(st: QueueState, t: SessionId): seq<Wake> {
    Pending(JournalOf(st.journals, t))
  }

  ghost predicate KeyHeld(st: QueueState, input: WakeInput) {
    exists v :: v in PendingIn(st, input.sessionId) && HoldsKey(v, input.dedupeKey)
  }

  /** The key is held by a wake that was pending before, or by one made from these very inputs. */
  ghost predicate KeyAnswered(before: QueueState, after: QueueState, inputs: seq<WakeInput>, input: WakeInput) {
    exists v :: v in PendingIn(after, input.sessionId) && HoldsKey(v, input.dedupeKey)
             && (v in PendingIn(before, input.sessionId) || AsInput(v) in inputs)
  }

  /**
   Nothing asked for is lost: each keyless request has a pending wake of its own, with all it
   asked for, beside those pending before; and each key is answered.
   */
  ghost predicate Conserved(before: QueueState, after: QueueState, inputs: seq<WakeInput>) {
    && (forall t :: KeylessOf(PendingIn(after, t)) == KeylessOf(PendingIn(before, t)) + KeylessInputs(inputs, t))
    && forall x :: x in inputs && Truthy(x.dedupeKey) ==> KeyAnswered(before, after, inputs, x)
  }

  ghost predicate FreshIds(st: QueueState) {
    forall t, w :: w in EnqueuedWakes(JournalOf(st.journals, t)) ==> w.id < st.nextId
  }

  /** One enqueue adds one wake to its own session, or none when the key is held. */
  lemma EnqueueAdds(st: QueueState, input: WakeInput, now: Time, t: SessionId)
    requires FreshIds(st)
    ensures PendingIn(EnqueueInto(st, input, now), t) ==
      if t == input.sessionId && Appends(st, input) then PendingIn(st, t) + [Minted(st.nextId, now, input)] else PendingIn(st, t)
  {
    PendingAfterEnqueue(JournalOf(st.journals, input.sessionId), Minted(st.nextId, now, input));
  }

  lemma EnqueueKeepsFresh(st: QueueState, input: WakeInput, now: Time)
    requires FreshIds(st)
    ensures FreshIds(EnqueueInto(st, input, now))
  {
    var after, wake := EnqueueInto(st, input, now), Minted(st.nextId, now, input);
    forall t, w | w in EnqueuedWakes(JournalOf(after.journals, t)) ensures w.id < after.nextId {
      EnqueuedWakesAppend(JournalOf(st.journals, input.sessionId), wake);
      assert w in EnqueuedWakes(JournalOf(st.journals, t)) || w == wake;
    }
  }

  lemma {:induction false} EnqueueAllKeepsFresh(st: QueueState, inputs: seq<WakeInput>, now: Time)
    requires FreshIds(st)
    ensures FreshIds(EnqueueAllInto(st, inputs, now))
  {
    if inputs != [] {
      EnqueueAllKeepsFresh(st, inputs[..|inputs| - 1], now);
      EnqueueKeepsFresh(EnqueueAllInto(st, inputs[..|inputs| - 1], now), inputs[|inputs| - 1], now);
    }
  }

  lemma EnqueueAllNext(st: QueueState, inputs: seq<WakeInput>, i: nat, now: Time)
    requires i < |inputs|
    ensures EnqueueAllInto(st, inputs[..i + 1], now) == EnqueueInto(EnqueueAllInto(st, inputs[..i], now), inputs[i], now)
  {
    assert inputs[..i + 1][..i] == inputs[..i];
  }

  lemma KeylessNext(pending: seq<Wake>, w: Wake)
    ensures KeylessOf(pending + [w]) == KeylessOf(pending) + if Truthy(w.dedupeKey) then multiset{} else multiset{AsInput(w)}
  {
    assert (pending + [w])[..|pending|] == pending;
  }

  /** Exactly the keyless requests are added, each with its own wake. */
  lemma {:induction false} KeylessAdded(st: QueueState, inputs: seq<WakeInput>, now: Time, t: SessionId)
    requires FreshIds(st)
    ensures KeylessOf(PendingIn(EnqueueAllInto(st, inputs, now), t)) == KeylessOf(PendingIn(st, t)) + KeylessInputs(inputs, t)
  {
    if inputs != [] {
      var front, last := inputs[..|inputs| - 1], inputs[|inputs| - 1];
      var middle := EnqueueAllInto(st, front, now);
      KeylessAdded(st, front, now, t);
      EnqueueAllKeepsFresh(st, front, now);
      EnqueueAdds(middle, last, now, t);
      var wake := Minted(middle.nextId, now, last);
      KeylessNext(PendingIn(middle, t), wake);
      assert AsInput(wake) == last;
    }
  }

  /** What was pending stays pending, and whatever else is pending was asked for. */
  lemma {:induction false} OnlyInputsAdded(st: QueueState, inputs: seq<WakeInput>, now: Time, t: SessionId)
    requires FreshIds(st)
    ensures PendingIn(st, t) <= PendingIn(EnqueueAllInto(st, inputs, now), t)
    ensures forall v :: v in PendingIn(EnqueueAllInto(st, inputs, now), t) ==> v in PendingIn(st, t) || AsInput(v) in inputs
  {
    if inputs != [] {
      var front, last := inputs[..|inputs| - 1], inputs[|inputs| - 1];
      OnlyInputsAdded(st, front, now, t);
      EnqueueAllKeepsFresh(st, front, now);
      var middle := EnqueueAllInto(st, front, now);
      EnqueueAdds(middle, last, now, t);
      assert AsInput(Minted(middle.nextId, now, last)) == last;
      assert forall x :: x in front ==> x in inputs;
    }
  }

  // ----- which wake answers each request

  /** The wake an enqueue returns: the holder of the key, or a new one. */
  function AnswerOf(st: QueueState, input: WakeInput, now: Time): Wake {
    var found := FindKey(PendingIn(st, input.sessionId), input.dedupeKey);
    if found.Some? then found.value else Minted(st.nextId, now, input)
  }

  function Answers(st: QueueState, inputs: seq<WakeInput>, now: Time): seq<Wake> {
    if inputs == [] then []
    else
      var front := inputs[..|inputs| - 1];
      Answers(st, front, now) + [AnswerOf(EnqueueAllInto(st, front, now), inputs[|inputs| - 1], now)]
  }

  /** The `i`-th request has a new wake of its own, or one pending before or made for an earlier request holds its key. */
  ghost predicate AnsweredBy(before: QueueState, after: QueueState, inputs: seq<WakeInput>, now: Time, got: seq<Wake>, i: nat)
    requires i < |inputs| == |got|
  {
    && got[i] in PendingIn(after, inputs[i].sessionId)
    && (|| (got[i] == Minted(before.nextId + i, now, inputs[i]) && got[i] !in PendingIn(before, inputs[i].sessionId))
        || (HoldsKey(got[i], inputs[i].dedupeKey) && (got[i] in PendingIn(before, inputs[i].sessionId) || got[i] in got[..i])))
  }

  ghost predicate AllAnswered(before: QueueState, after: QueueState, inputs: seq<WakeInput>, now: Time, got: seq<Wake>) {
    && |got| == |inputs|
    && (forall i :: 0 <= i < |inputs| ==> AnsweredBy(before, after, inputs, now, got, i))
    && (forall t, v :: v in PendingIn(after, t) ==> v in PendingIn(before, t) || v in got)
  }

  lemma {:induction false} NextIdAfter(st: QueueState, inputs: seq<WakeInput>, now: Time)
    ensures EnqueueAllInto(st, inputs, now).nextId == st.nextId + |inputs|
  {
    if inputs != [] {
      NextIdAfter(st, inputs[..|inputs| - 1], now);
    }
  }

  lemma NewIsNotPending(st: QueueState, id: WakeId, now: Time, input: WakeInput, t: SessionId)
    requires FreshIds(st) && id >= st.nextId
    ensures Minted(id, now, input) !in PendingIn(st, t)
  {
    PendingWasEnqueued(JournalOf(st.journals, t));
  }

  lemma AnswersKept(
      before: QueueState, middle: QueueState, after: QueueState, inputs: seq<WakeInput>, last: WakeInput, now: Time,
      got: seq<Wake>, wake: Wake, i: nat)
    requires i < |inputs| == |got| && AnsweredBy(before, middle, inputs, now, got, i)
    requires forall t :: PendingIn(middle, t) <= PendingIn(after, t)
    ensures AnsweredBy(before, after, inputs + [last], now, got + [wake], i)
  {
    assert (inputs + [last])[i] == inputs[i] && (got + [wake])[i] == got[i] && (got + [wake])[..i] == got[..i];
    assert PendingIn(middle, inputs[i].sessionId) <= PendingIn(after, inputs[i].sessionId);
  }

  lemma AnswerNext(before: QueueState, front: seq<WakeInput>, last: WakeInput, now: Time, got: seq<Wake>)
    requires FreshIds(before) && AllAnswered(before, EnqueueAllInto(before, front, now), front, now, got)
    ensures
      var middle := EnqueueAllInto(before, front, now);
      AllAnswered(before, EnqueueInto(middle, last, now), front + [last], now, got + [AnswerOf(middle, last, now)])
  {
    var middle := EnqueueAllInto(before, front, now);
    var after, wake := EnqueueInto(middle, last, now), AnswerOf(middle, last, now);
    EnqueueAllKeepsFresh(before, front, now);
    NextIdAfter(before, front, now);
    NewIsNotPending(before, middle.nextId, now, last, last.sessionId);
    forall t ensures PendingIn(middle, t) <= PendingIn(after, t) {
      EnqueueAdds(middle, last, now, t);
    }
    LastAnswer(middle, last, now);
    forall i | 0 <= i < |front| ensures AnsweredBy(before, after, front + [last], now, got + [wake], i) {
      AnswersKept(before, middle, after, front, last, now, got, wake, i);
    }
    assert (got + [wake])[..|front|] == got;
    forall t, v | v in PendingIn(after, t) ensures v in PendingIn(before, t) || v in got + [wake] {
      EnqueueAdds(middle, last, now, t);
    }
  }

  lemma LastAnswer(st: QueueState, input: WakeInput, now: Time)
    requires FreshIds(st)
    ensures AnswerOf(st, input, now) in PendingIn(EnqueueInto(st, input, now), input.sessionId)
  {
    EnqueueAdds(st, input, now, input.sessionId);
  }

  /** Each request is answered by a wake pending afterwards, and nothing else becomes pending. */
  lemma {:induction false} AnswersFound(st: QueueState, inputs: seq<WakeInput>, now: Time)
    requires FreshIds(st)
    ensures AllAnswered(st, EnqueueAllInto(st, inputs, now), inputs, now, Answers(st, inputs, now))
  {
    if inputs != [] {
      var front, last := inputs[..|inputs| - 1], inputs[|inputs| - 1];
      AnswersFound(st, front, now);
      AnswerNext(st, front, last, now, Answers(st, front, now));
      assert inputs == front + [last];
    }
  }

  /** Every key asked for ends up held. */
  lemma {:induction false} KeysHeld(st: QueueState, inputs: seq<WakeInput>, now: Time, x: WakeInput)
    requires FreshIds(st) && x in inputs && Truthy(x.dedupeKey)
    ensures KeyHeld(EnqueueAllInto(st, inputs, now), x)
  {
    var front, last := inputs[..|inputs| - 1], inputs[|inputs| - 1];
    var middle := EnqueueAllInto(st, front, now);
    EnqueueAllKeepsFresh(st, front, now);
    EnqueueAdds(middle, last, now, x.sessionId);
    var after := PendingIn(EnqueueAllInto(st, inputs, now), x.sessionId);
    if x == last {
      var found := FindKey(PendingIn(middle, x.sessionId), x.dedupeKey);
      if found.Some? {
        assert found.value in after;
      } else {
        assert after[|after| - 1] in after && HoldsKey(after[|after| - 1], x.dedupeKey);
      }
    } else {
      KeysHeld(st, front, now, x);
      var v :| v in PendingIn(middle, x.sessionId) && HoldsKey(v, x.dedupeKey);
      assert v in after;
    }
  }

  lemma HeldIsAnswered(st: QueueState, inputs: seq<WakeInput>, n: nat, now: Time, x: WakeInput)
    requires FreshIds(st) && n <= |inputs| && KeyHeld(EnqueueAllInto(st, inputs[..n], now), x)
    ensures KeyAnswered(st, EnqueueAllInto(st, inputs[..n], now), inputs, x)
  {
    var after := EnqueueAllInto(st, inputs[..n], now);
    OnlyInputsAdded(st, inputs[..n], now, x.sessionId);
    var v :| v in PendingIn(after, x.sessionId) && HoldsKey(v, x.dedupeKey);
    assert forall y :: y in inputs[..n] ==> y in inputs;
  }

  // ----- a list stopped short

  /** Each of the requests not reached has a key that is held all the same. */
  ghost predicate RestHeld(after: QueueState, inputs: seq<WakeInput>, n: nat) {
    forall k :: n <= k < |inputs| ==> Truthy(inputs[k].dedupeKey) && KeyHeld(after, inputs[k])
  }

  lemma {:induction false} KeylessAppend(a: seq<WakeInput>, b: seq<WakeInput>, t: SessionId)
    ensures KeylessInputs(a + b, t) == KeylessInputs(a, t) + KeylessInputs(b, t)
  {
    if b == [] {
      assert a + b == a;
    } else {
      var front, last := b[..|b| - 1], b[|b| - 1];
      calc {
        KeylessInputs(a + b, t);
        { assert (a + b)[..|a + b| - 1] == a + front; }
        KeylessInputs(a + front, t) + KeylessOne(last, t);
        { KeylessAppend(a, front, t); }
        (KeylessInputs(a, t) + KeylessInputs(front, t)) + KeylessOne(last, t);
        KeylessInputs(a, t) + (KeylessInputs(front, t) + KeylessOne(last, t));
      }
    }
  }

  lemma {:induction false} KeylessMembers(inputs: seq<WakeInput>, t: SessionId, x: WakeInput)
    ensures x in KeylessInputs(inputs, t) <==> x in inputs && x.sessionId == t && !Truthy(x.dedupeKey)
  {
    if inputs != [] {
      KeylessMembers(inputs[..|inputs| - 1], t, x);
      assert x in inputs <==> x in inputs[..|inputs| - 1] || x == inputs[|inputs| - 1];
    }
  }

  /** The requests of the first `n` are all of them exactly when no keyless one follows for the session. */
  lemma KeylessSplit(inputs: seq<WakeInput>, n: nat, t: SessionId)
    requires n <= |inputs|
    ensures KeylessInputs(inputs, t) == KeylessInputs(inputs[..n], t) <==>
      forall x :: x in inputs[n..] && x.sessionId == t ==> Truthy(x.dedupeKey)
  {
    assert inputs[..n] + inputs[n..] == inputs;
    KeylessAppend(inputs[..n], inputs[n..], t);
    var rest := KeylessInputs(inputs[n..], t);
    forall x ensures x in rest <==> x in inputs[n..] && x.sessionId == t && !Truthy(x.dedupeKey) {
      KeylessMembers(inputs[n..], t, x);
    }
    assert rest == multiset{} <==> forall x :: x !in rest;
    assert KeylessInputs(inputs[..n], t) + rest == KeylessInputs(inputs[..n], t) <==> rest == multiset{};
  }

  /** When nothing is lost, the first `n` requests are all the keyless ones. */
  lemma ConservedHasAll(st: QueueState, inputs: seq<WakeInput>, n: nat, now: Time, t: SessionId)
    requires FreshIds(st) && n <= |inputs| && Conserved(st, EnqueueAllInto(st, inputs[..n], now), inputs)
    ensures KeylessInputs(inputs, t) == KeylessInputs(inputs[..n], t)
  {
    KeylessAdded(st, inputs[..n], now, t);
    SameRest(KeylessOf(PendingIn(st, t)), KeylessInputs(inputs[..n], t), KeylessInputs(inputs, t));
  }

  lemma ConservedNeedsHeld(st: QueueState, inputs: seq<WakeInput>, n: nat, now: Time, k: nat)
    requires FreshIds(st) && n <= k < |inputs| && Conserved(st, EnqueueAllInto(st, inputs[..n], now), inputs)
    ensures Truthy(inputs[k].dedupeKey) && KeyHeld(EnqueueAllInto(st, inputs[..n], now), inputs[k])
  {
    var x := inputs[k];
    ConservedHasAll(st, inputs, n, now, x.sessionId);
    KeylessSplit(inputs, n, x.sessionId);
    assert inputs[n..][k - n] == x && x in inputs[n..] && x in inputs;
    assert KeyAnswered(st, EnqueueAllInto(st, inputs[..n], now), inputs, x);
  }

  lemma SameRest<T>(a: multiset<T>, b: multiset<T>, c: multiset<T>)
    ensures a + b == a + c ==> b == c
  {
    assert (a + b) - a == b && (a + c) - a == c;
  }

  /**
   The exact condition: after `n` of the enqueues nothing is lost if and only if every request
   that was not reached has a key, and that key is held.
   */
  lemma ConservedIffRestHeld(st: QueueState, inputs: seq<WakeInput>, n: nat, now: Time)
    requires FreshIds(st) && n <= |inputs|
    ensures
      var after := EnqueueAllInto(st, inputs[..n], now);
      Conserved(st, after, inputs) <==> RestHeld(after, inputs, n)
  {
    var after := EnqueueAllInto(st, inputs[..n], now);
    if RestHeld(after, inputs, n) {
      RestHeldConserves(st, inputs, n, now);
    }
    if Conserved(st, after, inputs) {
      forall k | n <= k < |inputs| ensures Truthy(inputs[k].dedupeKey) && KeyHeld(after, inputs[k]) {
        ConservedNeedsHeld(st, inputs, n, now, k);
      }
    }
  }

  lemma RestHeldConserves(st: QueueState, inputs: seq<WakeInput>, n: nat, now: Time)
    requires FreshIds(st) && n <= |inputs| && RestHeld(EnqueueAllInto(st, inputs[..n], now), inputs, n)
    ensures Conserved(st, EnqueueAllInto(st, inputs[..n], now), inputs)
  {
    var after := EnqueueAllInto(st, inputs[..n], now);
    forall t ensures KeylessOf(PendingIn(after, t)) == KeylessOf(PendingIn(st, t)) + KeylessInputs(inputs, t) {
      KeylessAdded(st, inputs[..n], now, t);
      KeylessSplit(inputs, n, t);
      assert forall k :: n <= k < |inputs| ==> inputs[n..][k - n] == inputs[k];
    }
    forall x | x in inputs && Truthy(x.dedupeKey) ensures KeyAnswered(st, after, inputs, x) {
      var k :| 0 <= k < |inputs| && inputs[k] == x;
      if k < n {
        assert x == inputs[..n][k];
        KeysHeld(st, inputs[..n], now, x);
      }
      HeldIsAnswered(st, inputs, n, now, x);
    }
  }

  /**
   The failing input: of two requests without a key, the first appends and misses the lock, and
   the second is lost; and a request without a key is lost when none is restored at all.
   */
  lemma MissedLockLosesTheRest(st: QueueState, first: WakeInput, second: WakeInput, now: Time)
    requires FreshIds(st) && !Truthy(first.dedupeKey) && !Truthy(second.dedupeKey)
    ensures Progress(st, [first, second], Faults(None, _ => true), now, 1, ThrewAfter)
    ensures !Conserved(st, EnqueueAllInto(st, [first, second][..1], now), [first, second])
    ensures !Conserved(st, st, [second])
  {
    var both, one := [first, second], [second];
    assert both[..0] == [] && one[..0] == [];
    assert LockFault(st, both, Faults(None, _ => true), now, 0);
    if Conserved(st, EnqueueAllInto(st, both[..1], now), both) {
      ConservedNeedsHeld(st, both, 1, now, 1);
    }
    if Conserved(st, EnqueueAllInto(st, one[..0], now), one) {
      ConservedNeedsHeld(st, one, 0, now, 0);
    }
  }
}
