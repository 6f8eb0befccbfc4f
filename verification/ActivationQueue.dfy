/**
 Leasing the next activation: try the best ready session, and on contention exclude it and
 look again, until a lease is granted or nothing is left.
 */
module ActivationQueue {
  import opened Options
  import opened WakeJournal
  import opened Activations
  import opened ActivationClaims

  /**
   The store and the queues as other workers change them: what the listing and the lease
   attempt see at each look. Sessions come from a finite universe.
   */
  datatype Environment = Environment(
    snapshots: nat -> Snapshot, acquires: nat -> bool, universe: set<SessionId>)

  ghost predicate EnvironmentOk(env: Environment, allowed: Option<set<SessionId>>) {
    forall t :: OnePerSession(env.snapshots(t)) && forall a :: IsReady(env.snapshots(t), allowed, a) ==> a.sessionId in env.universe
  }

  datatype LeaseResult =
    | LeaseGranted(lease: WakeLease)
    | LeaseBlocked(claimId: ClaimId, activation: Activation)
    | NothingReady

  function Sessions(activations: seq<Activation>): set<SessionId> {
    set a | a in activations :: a.sessionId
  }

  /** Each attempt was the best choice left, given those before it, and its lease was refused. */
  ghost predicate Refused(
      env: Environment, allowed: Option<set<SessionId>>, start: nat, excluded: set<SessionId>, contended: seq<Activation>)
  {
    forall i :: 0 <= i < |contended| ==>
      && IsBest(env.snapshots(start + i), allowed, excluded + Sessions(contended[..i]), contended[i])
      && !env.acquires(start + i)
  }

  predicate AmongClaims(c: ClaimId, first: ClaimId, attempts: nat) {
    first <= c < first + attempts
  }

  /** One blocked claim per refused attempt, with the ids from `first` on; other claims are as before. */
  ghost predicate JournaledAsBlocked(
      before: seq<ClaimRecord>, after: seq<ClaimRecord>, first: ClaimId, attempts: nat)
  {
    forall c: ClaimId :: Word(after, c) == if AmongClaims(c, first, attempts) then [Blocked] else Word(before, c)
  }

  /** The search so far: every refused attempt was the best choice left, one per session. */
  ghost predicate Searched(
      env: Environment, allowed: Option<set<SessionId>>, start: nat, excluded: set<SessionId>, contended: seq<Activation>)
  {
    && Refused(env, allowed, start, excluded, contended)
    && Sessions(contended) !! excluded && DistinctSessions(contended)
  }

  lemma SearchedAppend(
      env: Environment, allowed: Option<set<SessionId>>, start: nat, excluded: set<SessionId>,
      contended: seq<Activation>, a: Activation)
    requires Searched(env, allowed, start, excluded, contended)
    requires IsBest(env.snapshots(start + |contended|), allowed, excluded + Sessions(contended), a)
    requires !env.acquires(start + |contended|)
    ensures Searched(env, allowed, start, excluded, contended + [a])
    ensures Sessions(contended + [a]) == Sessions(contended) + {a.sessionId}
  {
    var all := contended + [a];
    forall i | 0 <= i < |all|
      ensures IsBest(env.snapshots(start + i), allowed, excluded + Sessions(all[..i]), all[i]) && !env.acquires(start + i)
    {
      assert i < |contended| ==> all[..i] == contended[..i] && all[i] == contended[i];
      assert i == |contended| ==> all[..i] == contended;
    }
    assert all[|contended|] == a;
    assert Sessions(all) == Sessions(contended) + {a.sessionId};
    assert a.sessionId !in excluded + Sessions(contended);
    assert forall x :: x in contended ==> x.sessionId in Sessions(contended);
    AppendDistinct(contended, a);
  }

  /**
   The search: refused attempts are journaled as blocked and excluded, until a lease is
   granted (`found`) or the listing is exhausted. The exclusion set only grows.
   */
  method Search(
      journal: ActivationJournal, env: Environment, allowed: Option<set<SessionId>>,
      exclude: set<SessionId>, start: nat)
    returns (found: Option<Activation>, contended: seq<Activation>)
    requires journal.Valid() && EnvironmentOk(env, allowed)
    modifies journal
    ensures journal.Valid() && journal.open == old(journal.open)
    ensures journal.nextClaim == old(journal.nextClaim) + |contended|
    ensures JournaledAsBlocked(old(journal.records), journal.records, old(journal.nextClaim), |contended|)
    ensures Searched(env, allowed, start, exclude, contended)
    ensures Chosen(env.snapshots(start + |contended|), allowed, exclude + Sessions(contended), found)
    ensures found.Some? ==> env.acquires(start + |contended|)
  {
    var excluded := exclude;
    contended := [];
    found := NextReadyActivation(env.snapshots(start), allowed, excluded);
    while found.Some? && !env.acquires(start + |contended|)
      invariant journal.Valid() && journal.open == old(journal.open)
      invariant journal.nextClaim == old(journal.nextClaim) + |contended|
      invariant JournaledAsBlocked(old(journal.records), journal.records, old(journal.nextClaim), |contended|)
      invariant SearchedTo(env, allowed, start, exclude, excluded, contended, found)
      decreases env.universe - excluded
    {
      RefuseNext(journal, found.value, old(journal.records), old(journal.nextClaim), |contended|);
      contended, excluded, found := LookAgain(env, allowed, start, exclude, excluded, contended, found.value);
    }
  }

  ghost predicate SearchedTo(
      env: Environment, allowed: Option<set<SessionId>>, start: nat, exclude: set<SessionId>,
      excluded: set<SessionId>, contended: seq<Activation>, found: Option<Activation>)
  {
    && Searched(env, allowed, start, exclude, contended)
    && excluded == exclude + Sessions(contended)
    && Chosen(env.snapshots(start + |contended|), allowed, exclude + Sessions(contended), found)
  }

  /** The refused activation is excluded and the sessions are listed again. */
  method LookAgain(
      env: Environment, allowed: Option<set<SessionId>>, start: nat, ghost exclude: set<SessionId>,
      excluded: set<SessionId>, contended: seq<Activation>, refused: Activation)
    returns (attempts: seq<Activation>, now: set<SessionId>, found: Option<Activation>)
    requires EnvironmentOk(env, allowed) && !env.acquires(start + |contended|)
    requires SearchedTo(env, allowed, start, exclude, excluded, contended, Some(refused))
    ensures SearchedTo(env, allowed, start, exclude, now, attempts, found)
    ensures attempts == contended + [refused] && now == excluded + {refused.sessionId}
    ensures refused.sessionId in env.universe - excluded
  {
    SearchedAppend(env, allowed, start, exclude, contended, refused);
    InUniverse(env, allowed, start + |contended|, refused);
    attempts := contended + [refused];
    now := excluded + {refused.sessionId};
    found := NextReadyActivation(env.snapshots(start + |attempts|), allowed, now);
  }

  method RefuseNext(
      journal: ActivationJournal, a: Activation, ghost before: seq<ClaimRecord>, ghost first: ClaimId, ghost attempts: nat)
    requires journal.Valid() && journal.nextClaim == first + attempts
    requires JournaledAsBlocked(before, journal.records, first, attempts)
    requires Word(before, first + attempts) == []
    modifies journal
    ensures journal.Valid() && journal.open == old(journal.open) && journal.nextClaim == first + attempts + 1
    ensures JournaledAsBlocked(before, journal.records, first, attempts + 1)
  {
    var claimId := journal.RecordBlocked(a);
  }

  lemma InUniverse(env: Environment, allowed: Option<set<SessionId>>, t: nat, a: Activation)
    requires EnvironmentOk(env, allowed) && IsReady(env.snapshots(t), allowed, a)
    ensures a.sessionId in env.universe
  {
  }

  /**
   Returns the best entry whose lease was granted, every better one left being excluded or
   refused; it reports blocked only when every entry left was refused. The listing that
   decided was `env.snapshots(start + |contended|)`.
   */
  method LeaseNextActivation(
      journal: ActivationJournal, env: Environment, allowed: Option<set<SessionId>>,
      exclude: set<SessionId>, start: nat)
    returns (result: LeaseResult, contended: seq<Activation>)
    requires journal.Valid() && EnvironmentOk(env, allowed)
    modifies journal
    ensures journal.Valid()
    ensures Searched(env, allowed, start, exclude + env.snapshots(start).leased, contended)
    ensures result.LeaseGranted? ==>
              && result.lease.activation.Some? && env.acquires(start + |contended|)
              && IsBest(env.snapshots(start + |contended|), allowed,
                        exclude + env.snapshots(start).leased + Sessions(contended), result.lease.activation.value)
    ensures !result.LeaseGranted? ==>
              Exhausted(env.snapshots(start + |contended|), allowed, exclude + env.snapshots(start).leased + Sessions(contended))
    ensures result.NothingReady? <==> !result.LeaseGranted? && contended == []
    ensures result.LeaseBlocked? ==>
              && |contended| > 0 && result.activation == contended[|contended| - 1]
              && result.claimId == old(journal.nextClaim) + |contended| - 1
    ensures !result.LeaseGranted? ==>
              && journal.open == old(journal.open)
              && JournaledAsBlocked(old(journal.records), journal.records, old(journal.nextClaim), |contended|)
    ensures result.LeaseGranted? ==>
              && fresh(result.lease) && result.lease.Valid() && !result.lease.closed && result.lease.journal == journal
              && journal.open == old(journal.open) + {result.lease.claimId} && result.lease.claimId !in old(journal.open)
              && Word(journal.records, result.lease.claimId) == [Leased]
              && (forall c: ClaimId :: c != result.lease.claimId && !AmongClaims(c, old(journal.nextClaim), |contended|) ==>
                    Word(journal.records, c) == old(Word(journal.records, c)))
  {
    var found;
    found, contended := Search(journal, env, allowed, exclude + env.snapshots(start).leased, start);
    if found.None? {
      if |contended| > 0 {
        return LeaseBlocked(journal.nextClaim - 1, contended[|contended| - 1]), contended;
      }
      return NothingReady, contended;
    }
    var claimId := journal.RecordLeased(found.value);
    var lease := new WakeLease.Claimed(journal, claimId, found.value);
    return LeaseGranted(lease), contended;
  }
}
