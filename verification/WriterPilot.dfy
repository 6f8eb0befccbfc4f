/** One run of the writer: up to three collections, a final recheck, at most one PUT. */
module WriterPilot {
  import opened Options
  import opened WriterLedger
  import opened RetryMetadata

  datatype Scope = Scope(base: string, head: string, headTree: string)

  /** A call of the client, with the answer it will get. */
  datatype Call = Fetch(route: string, reply: Reply) | Download(id: int, artifact: ArtifactReply)

  /** The calls of some step and the value it computes from the answers; `None` when it raises. */
  datatype Step<+T> = Step(calls: seq<Call>, value: Option<T>)

  datatype Report = Report(reportOnly: bool, mergeAuthorized: bool, eligible: bool)

  datatype Attempt = Attempt(scope: Step<Scope>, observation: Step<Observation>)

  /** The rereads after an eligible report, in the order they are made. */
  datatype Recheck = Recheck(
    scope: Step<Scope>, rules: Step<Facts>, rulesets: nat -> Step<Ruleset>, base: Step<string>, workflowActive: Step<bool>)

  /** The two reads after the PUT: the pull request and the commit it names. */
  datatype Reconciliation = Reconciliation(
    pull: Reply, mergedHead: Option<string>, mergeSha: string,
    commit: Reply, commitSha: string, parents: seq<string>, tree: string)

  datatype Setting = Setting(enabled: bool, writerEnabled: bool, contextValid: bool, execute: bool)

  datatype Surroundings = Surroundings(
    attempts: nat -> Attempt, evaluate: Observation -> Report, retryable: Observation -> bool,
    recheck: Recheck, intentPersists: bool, put: Reply, reconciliation: Reconciliation)

  datatype Failure =
    | OfApi(code: Code)
    | StepRaised
    | WriterContextInvalid
    | PilotCollectionTupleChanged
    | RetryEvidenceChanged
    | EvidenceIsNotReportOnly
    | WriterRetryDeadlineExceeded
    | PilotChangedBeforeMerge
    | RulesChangedBeforeMerge
    | PrincipalOrRulesChangedBeforeMerge
    | BaseChangedBeforeMerge
    | WriterWorkflowDisabled
    | IntentNotPersisted
    | OutcomeUnknown
    | MergedCommitUnverified

  datatype Try<+T> = Done(value: T) | Failed(failure: Failure)

  datatype Outcome =
    | Disabled
    | Ineligible(collections: nat)
    | DryRunEligible(head: string)
    | Merged(sha: string, base: string, head: string)

  const PILOT_PULL_REQUEST := 68
  const MAX_ATTEMPTS := 3
  const MAX_DELAY := 240
  const MIN_DELAY := 30

  // ----- reads

  /** Any sequence of reads keeps the ledger in order and sends no PUT. */
  method Perform(api: WriterApi, calls: seq<Call>) returns (failure: Option<Failure>)
    requires api.Valid()
    modifies api`tick, api`requests, api`bytes, api`downloaded, api`raised
    ensures api.Valid()
    ensures failure.Some? ==> failure.value.OfApi? && api.raised
    ensures failure.None? ==> api.raised == old(api.raised)
    ensures failure.None? && calls != [] ==> !api.Overdrawn()
    ensures old(api.Overdrawn()) && calls != [] ==> failure.Some?
  {
    for k := 0 to |calls|
      invariant api.Valid() && api.raised == old(api.raised)
      invariant k > 0 ==> !api.Overdrawn() && !old(api.Overdrawn())
      invariant k == 0 ==> api.Overdrawn() == old(api.Overdrawn())
    {
      match calls[k] {
        case Fetch(route, reply) =>
          var result := api.Get(route, reply);
          if result.Raised? {
            return Some(OfApi(result.code));
          }
        case Download(id, reply) =>
          var result := api.DownloadArtifact(id, reply);
          if result.Raised? {
            return Some(OfApi(result.code));
          }
      }
    }
    failure := None;
  }

  method Run<T>(api: WriterApi, step: Step<T>) returns (result: Try<T>)
    requires api.Valid()
    modifies api`tick, api`requests, api`bytes, api`downloaded, api`raised
    ensures api.Valid()
    ensures result.Done? ==> step.value == Some(result.value)
    ensures result.Failed? ==> (result.failure.OfApi? && api.raised) || (result.failure.StepRaised? && step.value.None?)
  {
    var failure := Perform(api, step.calls);
    result := if failure.Some? then Failed(failure.value)
              else if step.value.None? then Failed(StepRaised)
              else Done(step.value.value);
  }

  // ----- the collections

  predicate DescribesScope(observation: Observation, scope: Scope) {
    observation.pullRequest == PILOT_PULL_REQUEST && observation.baseSha == scope.base && observation.headSha == scope.head
  }

  /** Why a collection fails: a call raised, a step did, or what was observed is not what was asked for. */
  predicate CollectFails(failure: Failure, attempt: Attempt, raised: bool) {
    || (failure.OfApi? && raised)
    || (failure.StepRaised? && (attempt.scope.value.None? || attempt.observation.value.None?))
    || (failure.PilotCollectionTupleChanged? && attempt.scope.value.Some? && attempt.observation.value.Some?
        && !DescribesScope(attempt.observation.value.value, attempt.scope.value.value))
  }

  method Collect(api: WriterApi, attempt: Attempt) returns (result: Try<(Scope, Observation)>)
    requires api.Valid()
    modifies api`tick, api`requests, api`bytes, api`downloaded, api`raised, api`phaseStarted, api`phaseRequests
    ensures api.Valid()
    ensures result.Done? ==>
      && attempt.scope.value == Some(result.value.0) && attempt.observation.value == Some(result.value.1)
      && result.value.1.pullRequest == 68
      && result.value.1.baseSha == result.value.0.base && result.value.1.headSha == result.value.0.head
    ensures result.Failed? ==> CollectFails(result.failure, attempt, api.raised)
  {
    api.BeginPhase();
    var scope := Run(api, attempt.scope);
    if scope.Failed? {
      return Failed(scope.failure);
    }
    var observation := Run(api, attempt.observation);
    if observation.Failed? {
      return Failed(observation.failure);
    }
    if !DescribesScope(observation.value, scope.value) {
      return Failed(PilotCollectionTupleChanged);
    }
    return Done((scope.value, observation.value));
  }

  /** Snapshots accepted so far, one per attempt: each monotone towards the next, all but the last found ineligible. */
  ghost predicate Accepted(seen: seq<Observation>, around: Surroundings) {
    && Chain(seen)
    && (forall k :: 0 <= k < |seen| ==> around.attempts(k).observation.value == Some(seen[k]))
    && forall k :: 0 <= k < |seen| - 1 ==> !around.evaluate(seen[k]).eligible && around.retryable(seen[k])
  }

  /** The last snapshot is the one judged eligible, and every earlier one is monotone towards it. */
  ghost predicate Eligible(seen: seq<Observation>, scope: Scope, around: Surroundings) {
    && 0 < |seen| <= 3 && Accepted(seen, around)
    && around.evaluate(seen[|seen| - 1]) == Report(true, false, true)
    && DescribesScope(seen[|seen| - 1], scope) && around.attempts(|seen| - 1).scope.value == Some(scope)
    && forall k :: 0 <= k < |seen| - 1 ==> Monotone(seen[k], seen[|seen| - 1])
  }

  predicate DelaysAllowed(delays: seq<int>) {
    forall d :: d in delays ==> 30 <= d <= 240
  }

  /** Between two attempts: every snapshot so far was accepted, not eligible and worth a retry. */
  ghost predicate Waiting(seen: seq<Observation>, delays: seq<int>, attempt: nat, around: Surroundings) {
    && |seen| == |delays| == attempt && Accepted(seen, around) && DelaysAllowed(delays)
    && (seen != [] ==> !around.evaluate(seen[|seen| - 1]).eligible && around.retryable(seen[|seen| - 1]))
  }

  lemma AcceptNext(seen: seq<Observation>, delays: seq<int>, attempt: nat, scope: Scope, next: Observation, around: Surroundings)
    requires Waiting(seen, delays, attempt, around) && attempt < MAX_ATTEMPTS
    requires DescribesScope(next, scope)
    requires around.attempts(attempt).scope.value == Some(scope) && around.attempts(attempt).observation.value == Some(next)
    requires seen != [] ==> Monotone(seen[|seen| - 1], next)
    ensures Accepted(seen + [next], around)
    ensures around.evaluate(next) == Report(true, false, true) ==> Eligible(seen + [next], scope, around)
  {
    var more := seen + [next];
    forall k | 0 <= k < |seen| ensures Monotone(seen[k], next) {
      ChainIsMonotone(more, k, |seen|);
    }
  }

  /** The last snapshot is not eligible, and either it is the third or another attempt could not change that. */
  ghost predicate GivesUp(seen: seq<Observation>, around: Surroundings) {
    && seen != [] && !around.evaluate(seen[|seen| - 1]).eligible
    && (|seen| == 3 || !around.retryable(seen[|seen| - 1]))
  }

  /** Why the attempts fail, after those that were accepted. */
  ghost predicate AttemptsFail(failure: Failure, seen: seq<Observation>, around: Surroundings, raised: bool, api: WriterApi)
    reads api
  {
    || (|seen| < MAX_ATTEMPTS && CollectFails(failure, around.attempts(|seen|), raised))
    || (failure.RetryEvidenceChanged? && 0 < |seen| < MAX_ATTEMPTS
        && around.attempts(|seen|).observation.value.Some?
        && !Monotone(seen[|seen| - 1], around.attempts(|seen|).observation.value.value))
    || (failure.EvidenceIsNotReportOnly? && seen != []
        && var report := around.evaluate(seen[|seen| - 1]); !report.reportOnly || report.mergeAuthorized)
    || (failure.WriterRetryDeadlineExceeded? && 0 < |seen| < MAX_ATTEMPTS && TooLateToRetry(api)
        && !around.evaluate(seen[|seen| - 1]).eligible && around.retryable(seen[|seen| - 1]))
  }

  /** The last clock reading leaves less than the shortest wait before the last three minutes. */
  ghost predicate TooLateToRetry(api: WriterApi)
    reads api
  {
    api.tick > 0 && api.clock(api.tick - 1) - api.started > 600 - 180 - MIN_DELAY
  }

  /** How the collecting ends: with a scope found eligible, with giving up, or with a failure. */
  ghost predicate Stopped(
      result: Try<Option<Scope>>, seen: seq<Observation>, delays: seq<int>, around: Surroundings, api: WriterApi)
    reads api
  {
    && |seen| <= MAX_ATTEMPTS && Accepted(seen, around)
    && |delays| < MAX_ATTEMPTS && DelaysAllowed(delays)
    && match result
       case Done(Some(scope)) => Eligible(seen, scope, around) && |delays| == |seen| - 1
       case Done(None) => GivesUp(seen, around)
       case Failed(failure) => AttemptsFail(failure, seen, around, api.raised, api)
  }

  /** Up to three collections; `None` with no failure means that the last one was not eligible. */
  method CollectUntilEligible(api: WriterApi, around: Surroundings)
    returns (result: Try<Option<Scope>>, seen: seq<Observation>, delays: seq<int>)
    requires api.Valid()
    modifies api`tick, api`requests, api`bytes, api`downloaded, api`raised, api`phaseStarted, api`phaseRequests
    ensures api.Valid()
    ensures Stopped(result, seen, delays, around, api)
  {
    seen, delays := [], [];
    for attempt := 0 to MAX_ATTEMPTS
      invariant api.Valid()
      invariant Waiting(seen, delays, attempt, around) && attempt < MAX_ATTEMPTS
    {
      var stop;
      stop, seen, delays := MakeAttempt(api, around, attempt, seen, delays);
      if stop.Some? {
        return stop.value, seen, delays;
      }
    }
    assert false;
  }

  /** One more attempt; it ends the collecting, or waits for the next. */
  method MakeAttempt(api: WriterApi, around: Surroundings, attempt: nat, before: seq<Observation>, waited: seq<int>)
    returns (stop: Option<Try<Option<Scope>>>, seen: seq<Observation>, delays: seq<int>)
    requires api.Valid() && Waiting(before, waited, attempt, around) && attempt < MAX_ATTEMPTS
    modifies api`tick, api`requests, api`bytes, api`downloaded, api`raised, api`phaseStarted, api`phaseRequests
    ensures api.Valid()
    ensures stop.None? ==> attempt + 1 < MAX_ATTEMPTS && Waiting(seen, delays, attempt + 1, around)
    ensures stop.Some? ==> Stopped(stop.value, seen, delays, around, api)
  {
    seen, delays := before, waited;
    var collected := Collect(api, around.attempts(attempt));
    if collected.Failed? {
      return Some(Failed(collected.failure)), seen, delays;
    }
    var (scope, observation) := collected.value;
    if seen != [] && !Monotone(seen[|seen| - 1], observation) {
      return Some(Failed(RetryEvidenceChanged)), seen, delays;
    }
    AcceptNext(seen, delays, attempt, scope, observation, around);
    seen := seen + [observation];
    var report := around.evaluate(observation);
    if !report.reportOnly || report.mergeAuthorized {
      return Some(Failed(EvidenceIsNotReportOnly)), seen, delays;
    }
    if report.eligible {
      return Some(Done(Some(scope))), seen, delays;
    }
    if attempt == 2 || !around.retryable(observation) {
      return Some(Done(None)), seen, delays;
    }
    var now := api.Now();
    var remaining := 600 - (now - api.started) - 180;
    var delay := if remaining < MAX_DELAY then remaining else MAX_DELAY;
    if delay < MIN_DELAY {
      return Some(Failed(WriterRetryDeadlineExceeded)), seen, delays;
    }
    return None, seen, delays + [delay];
  }

  // ----- the recheck

  /** The reread of a ruleset gives what was collected, and shows that it cannot be bypassed. */
  predicate RulesetHolds(reread: Step<Ruleset>, detail: Ruleset) {
    reread.value == Some(detail) && detail.neverBypassed
  }

  /** Every reread agrees with the scope and the observation it follows. */
  predicate Rechecked(recheck: Recheck, scope: Scope, observation: Observation) {
    && recheck.scope.value == Some(scope) && recheck.rules.value == Some(observation.rules)
    && (forall k :: 0 <= k < |observation.ruleDetails| ==> RulesetHolds(recheck.rulesets(k), observation.ruleDetails[k]))
    && recheck.base.value == Some(scope.base) && recheck.workflowActive.value == Some(true)
  }

  predicate RulesetsFail(failure: Failure, recheck: Recheck, details: seq<Ruleset>, raised: bool) {
    || (failure.OfApi? && raised)
    || (failure.StepRaised? && exists k :: 0 <= k < |details| && recheck.rulesets(k).value.None?)
    || (failure.PrincipalOrRulesChangedBeforeMerge? && exists k :: 0 <= k < |details| && !RulesetHolds(recheck.rulesets(k), details[k]))
  }

  predicate Differs<T(==)>(step: Step<T>, expected: T) {
    step.value.Some? && step.value.value != expected
  }

  /** Why the recheck fails: the reread that raised or differs. */
  predicate RecheckFails(failure: Failure, recheck: Recheck, scope: Scope, observation: Observation, raised: bool) {
    || RulesetsFail(failure, recheck, observation.ruleDetails, raised)
    || (failure.StepRaised?
        && (recheck.scope.value.None? || recheck.rules.value.None? || recheck.base.value.None? || recheck.workflowActive.value.None?))
    || (failure.PilotChangedBeforeMerge? && Differs(recheck.scope, scope))
    || (failure.RulesChangedBeforeMerge? && Differs(recheck.rules, observation.rules))
    || (failure.BaseChangedBeforeMerge? && Differs(recheck.base, scope.base))
    || (failure.WriterWorkflowDisabled? && recheck.workflowActive.value == Some(false))
  }

  method RecheckRulesets(api: WriterApi, recheck: Recheck, details: seq<Ruleset>) returns (failure: Option<Failure>)
    requires api.Valid()
    modifies api`tick, api`requests, api`bytes, api`downloaded, api`raised
    ensures api.Valid()
    ensures failure.None? ==> forall k :: 0 <= k < |details| ==> RulesetHolds(recheck.rulesets(k), details[k])
    ensures failure.Some? ==> RulesetsFail(failure.value, recheck, details, api.raised)
  {
    for k := 0 to |details|
      invariant api.Valid()
      invariant forall i :: 0 <= i < k ==> RulesetHolds(recheck.rulesets(i), details[i])
    {
      var reread := Run(api, recheck.rulesets(k));
      if reread.Failed? || reread.value != details[k] || !reread.value.neverBypassed {
        return Some(if reread.Failed? then reread.failure else PrincipalOrRulesChangedBeforeMerge);
      }
    }
    return None;
  }

  method RecheckScope(api: WriterApi, recheck: Recheck, scope: Scope, observation: Observation) returns (failure: Option<Failure>)
    requires api.Valid()
    modifies api`tick, api`requests, api`bytes, api`downloaded, api`raised
    ensures api.Valid()
    ensures failure.None? ==> Rechecked(recheck, scope, observation)
    ensures failure.Some? ==> RecheckFails(failure.value, recheck, scope, observation, api.raised)
  {
    var again := Run(api, recheck.scope);
    if again.Failed? || again.value != scope {
      return Some(if again.Failed? then again.failure else PilotChangedBeforeMerge);
    }
    var rules := Run(api, recheck.rules);
    if rules.Failed? || rules.value != observation.rules {
      return Some(if rules.Failed? then rules.failure else RulesChangedBeforeMerge);
    }
    failure := RecheckRulesets(api, recheck, observation.ruleDetails);
    if failure.Some? {
      return;
    }
    var base := Run(api, recheck.base);
    if base.Failed? || base.value != scope.base {
      return Some(if base.Failed? then base.failure else BaseChangedBeforeMerge);
    }
    var active := Run(api, recheck.workflowActive);
    if active.Failed? || !active.value {
      return Some(if active.Failed? then active.failure else WriterWorkflowDisabled);
    }
    return None;
  }

  // ----- the reconciliation

  const PULL_ROUTE := REPOSITORY_PREFIX + "/pulls/68"
  const COMMIT_ROUTE := REPOSITORY_PREFIX + "/git/commits/"

  lemma RoutesAre()
    ensures PULL_ROUTE == "/repos/openboa-ai/openboa/pulls/68"
    ensures COMMIT_ROUTE == "/repos/openboa-ai/openboa/git/commits/"
  {
  }

  /** What the two reads must say for the run to report a merge. */
  predicate Reconciled(r: Reconciliation, scope: Scope, response: Option<string>) {
    && r.mergedHead == Some(scope.head) && IsSha(r.mergeSha) && (response.Some? ==> response.value == r.mergeSha)
    && r.commitSha == r.mergeSha && r.parents == [scope.base] && r.tree == scope.headTree
  }

  /** The merge commit that the PUT itself answered with, when its answer was usable. */
  function PutResponse(put: Reply): Option<string> {
    var result := ReceiveMerge(put).result;
    if result.Returned? then Some(result.value) else None
  }

  /** Why a merge is not reported: a read raised, the pull request does not say that this head was merged, or the commit is another. */
  predicate ReconcileFails(failure: Failure, scope: Scope, response: Option<string>, r: Reconciliation, raised: bool) {
    || (failure.OfApi? && raised)
    || (failure.OutcomeUnknown?
        && !(r.mergedHead == Some(scope.head) && IsSha(r.mergeSha) && (response.Some? ==> response.value == r.mergeSha)))
    || (failure.MergedCommitUnverified? && !(r.commitSha == r.mergeSha && r.parents == [scope.base] && r.tree == scope.headTree))
  }

  /**
   Two reads and no write. Right after a PUT both fit the request budgets: only the time may be
   exceeded, never the number of requests.
   */
  method ReconcileMerge(api: WriterApi, scope: Scope, response: Option<string>, r: Reconciliation) returns (result: Try<string>)
    requires api.Valid() && api.Affords(2)
    modifies api`tick, api`requests, api`bytes, api`raised
    ensures api.Valid() && old(api.requests) <= api.requests && |api.requests| <= |old(api.requests)| + 2
    ensures result.Done? ==> result.value == r.mergeSha && Reconciled(r, scope, response)
    ensures result.Done? ==>
      api.requests == old(api.requests) +
        [GetRequest(PULL_ROUTE), GetRequest(COMMIT_ROUTE + r.mergeSha)]
    ensures result.Failed? ==> ReconcileFails(result.failure, scope, response, r, api.raised)
    ensures result == Failed(OfApi(WriterTotalBudgetExceeded)) || result == Failed(OfApi(WriterCollectionBudgetExceeded)) ==>
      api.OutOfTime(old(api.tick))
  {
    var pull := api.Get(PULL_ROUTE, r.pull);
    if pull.Raised? {
      return Failed(OfApi(pull.code));
    }
    if r.mergedHead != Some(scope.head) || !IsSha(r.mergeSha) || (response.Some? && response.value != r.mergeSha) {
      return Failed(OutcomeUnknown);
    }
    var commit := api.Get(COMMIT_ROUTE + r.mergeSha, r.commit);
    if commit.Raised? {
      return Failed(OfApi(commit.code));
    }
    if r.commitSha != r.mergeSha || r.parents != [scope.base] || r.tree != scope.headTree {
      return Failed(MergedCommitUnverified);
    }
    return Done(r.mergeSha);
  }

  method MergeOnce(api: WriterApi, scope: Scope, around: Surroundings) returns (result: Try<Outcome>)
    requires api.Valid() && !api.sent
    modifies api`tick, api`requests, api`bytes, api`sent, api`raised
    ensures api.Valid()
    ensures api.sent ==> PutRequest(scope.head) in api.requests
    ensures result.Done? ==> api.sent && result.value.Merged? && result.value.base == scope.base && result.value.head == scope.head
    ensures result.Done? ==> Reconciled(around.reconciliation, scope, PutResponse(around.put))
    ensures !api.sent ==> result.Failed? && result.failure.OfApi?
    ensures result.Failed? ==> ReconcileFails(result.failure, scope, PutResponse(around.put), around.reconciliation, api.raised)
    ensures !api.sent && old(api.MayMerge(scope.head)) ==> api.TooLateToMerge(old(api.tick))
  {
    var merged := api.Merge(scope.head, around.put);
    if merged.Raised? && merged.code != MergeOutcomeUnknown {
      return Failed(OfApi(merged.code));
    }
    var response := if merged.Returned? then Some(merged.value) else None;
    var sha := ReconcileMerge(api, scope, response, around.reconciliation);
    return if sha.Failed? then Failed(sha.failure) else Done(Merged(sha.value, scope.base, scope.head));
  }

  // ----- the run

  /** Everything that has happened before a PUT is sent. */
  ghost predicate Cleared(setting: Setting, around: Surroundings, seen: seq<Observation>, scope: Scope) {
    && setting == Setting(true, true, true, true)
    && Eligible(seen, scope, around)
    && Rechecked(around.recheck, scope, seen[|seen| - 1])
    && around.intentPersists
  }

  /** Why a run fails: its setting, an attempt, the recheck, the intent, or what followed the decision to merge. */
  ghost predicate RunFails(
      failure: Failure, setting: Setting, around: Surroundings, seen: seq<Observation>, scope: Scope, api: WriterApi)
    reads api
  {
    && setting.enabled && setting.writerEnabled
    && (|| (failure.WriterContextInvalid? && !setting.contextValid)
        || AttemptsFail(failure, seen, around, api.raised, api)
        || (seen != [] && RecheckFails(failure, around.recheck, scope, seen[|seen| - 1], api.raised))
        || (failure.IntentNotPersisted? && setting.execute && !around.intentPersists)
        || (setting.execute && ReconcileFails(failure, scope, PutResponse(around.put), around.reconciliation, api.raised)))
  }

  /**
   A run sends at most one PUT, to the head it collected, and only after an eligible report on
   a snapshot that keeps everything settled or bound in every earlier one, and after an equal
   reread of the scope; every outcome but a merge means that nothing was sent.
   */
  method RunPilot(setting: Setting, api: WriterApi, around: Surroundings)
    returns (result: Try<Outcome>, seen: seq<Observation>, delays: seq<int>, ghost scope: Scope)
    requires api.Valid() && !api.sent
    modifies api
    ensures api.Valid() && PutCount(api.requests) == (if api.sent then 1 else 0)
    ensures api.sent ==> Cleared(setting, around, seen, scope) && PutRequest(scope.head) in api.requests
    ensures |seen| <= MAX_ATTEMPTS && Accepted(seen, around)
    ensures |delays| < MAX_ATTEMPTS && DelaysAllowed(delays)
    ensures result.Done? ==> (result.value.Merged? <==> api.sent)
    ensures result.Done? && result.value.Merged? ==> Reconciled(around.reconciliation, scope, PutResponse(around.put))
    ensures result.Done? && result.value.DryRunEligible? ==> Eligible(seen, scope, around) && Rechecked(around.recheck, scope, seen[|seen| - 1]) && !setting.execute
    ensures result.Done? && result.value.Ineligible? ==> result.value.collections == |seen| && GivesUp(seen, around)
    ensures result.Failed? ==> RunFails(result.failure, setting, around, seen, scope, api)
    ensures result.Done? ==> (result.value.Disabled? <==> !setting.enabled || !setting.writerEnabled)
  {
    seen, delays, scope := [], [], Scope("", "", "");
    if !setting.enabled || !setting.writerEnabled {
      return Done(Disabled), seen, delays, scope;
    }
    if !setting.contextValid {
      return Failed(WriterContextInvalid), seen, delays, scope;
    }
    var collected;
    collected, seen, delays := CollectUntilEligible(api, around);
    if collected.Failed? {
      return Failed(collected.failure), seen, delays, scope;
    }
    if collected.value.None? {
      return Done(Ineligible(|seen|)), seen, delays, scope;
    }
    var target := collected.value.value;
    scope := target;
    var changed := RecheckScope(api, around.recheck, target, seen[|seen| - 1]);
    if changed.Some? {
      return Failed(changed.value), seen, delays, scope;
    }
    if !setting.execute {
      return Done(DryRunEligible(target.head)), seen, delays, scope;
    }
    if !around.intentPersists {
      return Failed(IntentNotPersisted), seen, delays, scope;
    }
    result := MergeOnce(api, target, around);
  }
}
