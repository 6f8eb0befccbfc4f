/**
 What a turn asks for when it ends: wakes, a follow-up, or nothing; and the bound that the
 checkpoint puts on follow-ups over a session's whole life.
 */
module LoopDirective {
  import opened Options
  import opened Strings
  import opened WakeJournal

  /** An entry of the model's list; a field of the wrong type is absent. */
  datatype WakeEntry =
    | NotAnObject
    | WakeEntry(reason: Option<string>, delaySeconds: Option<real>, note: Option<string>, dedupeKey: Option<string>, priority: Option<string>)

  datatype QueuedWake = QueuedWake(
    reason: string, delaySeconds: int, note: Option<string>, dedupeKey: Option<string>, priority: Priority, dueAt: int)

  /** The model's directive block, where there is one that parses. */
  datatype Requested = Requested(
    wantsContinue: bool, followUpSeconds: Option<real>, queuedWakes: Option<seq<WakeEntry>>, customToolRequest: bool)

  datatype Outcome = Sleep | Continue

  datatype Directive = Directive(
    outcome: Outcome, followUpSeconds: Option<int>, nextWakeAt: Option<int>, enforcedByRuntime: bool,
    queuedWakes: seq<QueuedWake>, customToolRequest: bool)

  const MAX_QUEUED_WAKES := 3
  const MAX_WAKE_DELAY_SECONDS := 24 * 60 * 60

  /** Text that is more than spaces, without the spaces around it. */
  ghost predicate IsTrimmed(r: Option<string>, value: Option<string>) {
    && (r.Some? <==> value.Some? && HasText(value.value))
    && (r.Some? ==> r.value == Trim(value.value))
  }

  function NormalizeOptionalText(value: Option<string>): (r: Option<string>)
    ensures IsTrimmed(r, value) && (r.Some? ==> r.value != "")
  {
    if value.None? then None
    else
      TrimLeavesText(value.value);
      if Trim(value.value) != "" then Some(Trim(value.value)) else None
  }

  function ComputeNextWakeAt(createdAt: int, followUpSeconds: Option<int>): Option<int> {
    if followUpSeconds.Some? then Some(createdAt + followUpSeconds.value * 1000) else None
  }

  /** A positive number of seconds rounded down; below one it becomes zero, which is still a delay. */
  function WholeSeconds(seconds: Option<real>): (r: Option<int>)
    ensures r.Some? <==> seconds.Some? && seconds.value > 0.0
    ensures r.Some? ==> r.value >= 0 && (r.value as real) <= seconds.value < r.value as real + 1.0
  {
    if seconds.Some? && seconds.value > 0.0 then Some(seconds.value.Floor) else None
  }

  // ----- the wakes the model asks for

  /** A wake exactly for an entry with a reason and a positive delay; the delay is cut to a day. */
  function ResolveWake(createdAt: int, entry: WakeEntry): (r: Option<QueuedWake>)
    ensures r.Some? <==>
      && entry.WakeEntry? && entry.reason.Some? && HasText(entry.reason.value)
      && entry.delaySeconds.Some? && entry.delaySeconds.value > 0.0
    ensures r.Some? ==> r.value.reason == Trim(entry.reason.value)
    ensures r.Some? ==> IsTrimmed(r.value.note, entry.note) && IsTrimmed(r.value.dedupeKey, entry.dedupeKey)
    ensures r.Some? && r.value.delaySeconds < 86400 ==>
      r.value.delaySeconds as real <= entry.delaySeconds.value < r.value.delaySeconds as real + 1.0
    ensures r.Some? && r.value.delaySeconds == 86400 ==> entry.delaySeconds.value >= 86400.0
    ensures r.Some? ==> (r.value.priority.Low? <==> entry.priority == Some("low")) && (r.value.priority.High? <==> entry.priority == Some("high"))
    ensures r.Some? ==> 0 <= r.value.delaySeconds <= 86400 && r.value.reason != ""
    ensures r.Some? ==> r.value.dueAt == createdAt + r.value.delaySeconds * 1000
  {
    if entry.NotAnObject? then None
    else
      var reason := NormalizeOptionalText(entry.reason);
      var rawDelay := WholeSeconds(entry.delaySeconds);
      if reason.None? || rawDelay.None? then None
      else
        var delay := if rawDelay.value < MAX_WAKE_DELAY_SECONDS then rawDelay.value else MAX_WAKE_DELAY_SECONDS;
        var priority :=
          if entry.priority == Some("low") then Low else if entry.priority == Some("high") then High else Normal;
        Some(QueuedWake(reason.value, delay, NormalizeOptionalText(entry.note), NormalizeOptionalText(entry.dedupeKey),
                        priority, createdAt + delay * 1000))
  }

  /** Every wake that the entries describe, without the cap. */
  function Described(createdAt: int, entries: seq<WakeEntry>): seq<QueuedWake> {
    if entries == [] then []
    else
      var wake := ResolveWake(createdAt, entries[|entries| - 1]);
      Described(createdAt, entries[..|entries| - 1]) + if wake.Some? then [wake.value] else []
  }

  function AtMost<T>(s: seq<T>, n: nat): seq<T> {
    if |s| <= n then s else s[..n]
  }

  lemma {:induction false} DescribedPrefix(createdAt: int, entries: seq<WakeEntry>, n: nat)
    requires n <= |entries|
    ensures Described(createdAt, entries[..n]) <= Described(createdAt, entries)
  {
    if n < |entries| {
      DescribedPrefix(createdAt, entries[..|entries| - 1], n);
      assert entries[..|entries| - 1][..n] == entries[..n];
    } else {
      assert entries[..n] == entries;
    }
  }

  lemma DescribedNext(createdAt: int, entries: seq<WakeEntry>, n: nat)
    requires n < |entries|
    ensures
      var wake := ResolveWake(createdAt, entries[n]);
      Described(createdAt, entries[..n + 1]) == Described(createdAt, entries[..n]) + if wake.Some? then [wake.value] else []
  {
    assert entries[..n + 1][..n] == entries[..n];
  }

  /** The first three wakes described, however many entries follow or are malformed. */
  method ResolveQueuedWakes(createdAt: int, value: Option<seq<WakeEntry>>) returns (results: seq<QueuedWake>)
    ensures value.None? ==> results == []
    ensures value.Some? ==> results == AtMost(Described(createdAt, value.value), 3)
    ensures forall w :: w in results ==> 0 <= w.delaySeconds <= MAX_WAKE_DELAY_SECONDS && w.dueAt == createdAt + w.delaySeconds * 1000
  {
    results := [];
    if value.None? {
      return;
    }
    var entries := value.value;
    var n := 0;
    while n < |entries|
      invariant n <= |entries| && |results| <= MAX_QUEUED_WAKES
      invariant results == Described(createdAt, entries[..n])
      invariant forall w :: w in results ==> 0 <= w.delaySeconds <= MAX_WAKE_DELAY_SECONDS && w.dueAt == createdAt + w.delaySeconds * 1000
    {
      if |results| >= MAX_QUEUED_WAKES {
        DescribedPrefix(createdAt, entries, n);
        return;
      }
      DescribedNext(createdAt, entries, n);
      var wake := ResolveWake(createdAt, entries[n]);
      n := n + 1;
      if wake.None? {
        continue;
      }
      results := results + [wake.value];
    }
    assert entries[..n] == entries;
  }

  // ----- the directive

  /** The furthest instant from the epoch, in milliseconds, that the host language can print. */
  const MAX_DATE_MS := 8_640_000_000_000_000

  predicate Printable(time: int) {
    -MAX_DATE_MS <= time <= MAX_DATE_MS
  }

  predicate Continues(parsed: Option<Requested>, maxConsecutiveFollowUps: int, currentConsecutiveFollowUps: nat) {
    parsed.Some? && parsed.value.wantsContinue && currentConsecutiveFollowUps + 1 <= maxConsecutiveFollowUps
  }

  /** The delay of the follow-up: the one asked for, however long, or the default. */
  function FollowUpSeconds(parsed: Option<Requested>, defaultFollowUpSeconds: int): (r: int)
    ensures
      if parsed.Some? && parsed.value.followUpSeconds.Some? && parsed.value.followUpSeconds.value > 0.0
      then r as real <= parsed.value.followUpSeconds.value < r as real + 1.0
      else r == defaultFollowUpSeconds
  {
    if parsed.Some? then WholeSeconds(parsed.value.followUpSeconds).GetOr(defaultFollowUpSeconds) else defaultFollowUpSeconds
  }

  /** The first three wakes that the directive's entries describe. */
  function AskedWakes(parsed: Option<Requested>, createdAt: int): seq<QueuedWake> {
    if parsed.Some? && parsed.value.queuedWakes.Some?
    then AtMost(Described(createdAt, parsed.value.queuedWakes.value), 3) else []
  }

  /** More than a hundred million days from the epoch. */
  predicate TooFar(time: int) {
    time < -100_000_000 * 86_400_000 || time > 100_000_000 * 86_400_000
  }

  /** Some due time is too far off to be printed, which throws. */
  predicate DatesThrow(
      parsed: Option<Requested>, createdAt: int, defaultFollowUpSeconds: int,
      maxConsecutiveFollowUps: int, currentConsecutiveFollowUps: nat)
  {
    || (Continues(parsed, maxConsecutiveFollowUps, currentConsecutiveFollowUps)
        && TooFar(createdAt + FollowUpSeconds(parsed, defaultFollowUpSeconds) * 1000))
    || exists w :: w in AskedWakes(parsed, createdAt) && TooFar(w.dueAt)
  }

  /** What a reply asks for; nothing when a due time cannot be printed. */
  method ResolveLoopDirective(
      parsed: Option<Requested>, createdAt: int, defaultFollowUpSeconds: int,
      maxConsecutiveFollowUps: int, currentConsecutiveFollowUps: nat)
    returns (resolved: Option<Directive>)
    ensures resolved.None? <==>
      DatesThrow(parsed, createdAt, defaultFollowUpSeconds, maxConsecutiveFollowUps, currentConsecutiveFollowUps)
    ensures resolved.Some? ==>
      var directive := resolved.value;
      && (directive.outcome.Continue? <==> Continues(parsed, maxConsecutiveFollowUps, currentConsecutiveFollowUps))
      && (directive.enforcedByRuntime && maxConsecutiveFollowUps >= 0 ==> parsed.Some? && parsed.value.wantsContinue && directive.outcome.Sleep?)
      && (directive.nextWakeAt.Some? <==> directive.outcome.Continue?)
      && (directive.followUpSeconds == if directive.outcome.Continue? then Some(FollowUpSeconds(parsed, defaultFollowUpSeconds)) else None)
      && (directive.nextWakeAt.Some? ==> directive.nextWakeAt.value == createdAt + directive.followUpSeconds.value * 1000)
      && directive.queuedWakes == AskedWakes(parsed, createdAt) && |directive.queuedWakes| <= MAX_QUEUED_WAKES
      && (forall w :: w in directive.queuedWakes ==>
            0 <= w.delaySeconds <= MAX_WAKE_DELAY_SECONDS && w.dueAt == createdAt + w.delaySeconds * 1000)
      && (directive.customToolRequest <==> parsed.Some? && parsed.value.customToolRequest)
  {
    var rawOutcome := if parsed.Some? && parsed.value.wantsContinue then Continue else Sleep;
    var requestedFollowUp := if parsed.Some? then WholeSeconds(parsed.value.followUpSeconds) else None;
    var nextConsecutiveFollowUps := if rawOutcome.Continue? then currentConsecutiveFollowUps + 1 else 0;
    var enforcedByRuntime := nextConsecutiveFollowUps > maxConsecutiveFollowUps;
    var outcome := if enforcedByRuntime then Sleep else rawOutcome;
    var followUpSeconds := if outcome.Continue? then Some(requestedFollowUp.GetOr(defaultFollowUpSeconds)) else None;
    var nextWakeAt := ComputeNextWakeAt(createdAt, followUpSeconds);
    if nextWakeAt.Some? && !Printable(nextWakeAt.value) {
      return None;
    }
    var queuedWakes := ResolveQueuedWakes(createdAt, if parsed.Some? then parsed.value.queuedWakes else None);
    if exists w :: w in queuedWakes && !Printable(w.dueAt) {
      return None;
    }
    return Some(Directive(
      outcome, followUpSeconds, nextWakeAt, enforcedByRuntime, queuedWakes, parsed.Some? && parsed.value.customToolRequest));
  }

  // ----- turns

  datatype StopReason = Idle | Rescheduling | RequiresAction

  datatype Checkpoint = Checkpoint(
    outcome: Outcome, consecutiveFollowUps: nat, nextWakeAt: Option<int>, queuedWakes: seq<QueuedWake>, stopReason: StopReason)

  /** The wake that a turn was started for. */
  datatype WakeContext = WakeContext(reason: string, note: Option<string>)

  /** How the model's part of a turn ends. */
  datatype Ending =
    | ConfirmationRequired
    | Replied(parsed: Option<Requested>)
    | ProviderFailed(retryable: bool, hasPendingEvents: bool, wakeContext: Option<WakeContext>, errorMessage: string)

  /** What a turn did to the run of follow-ups. */
  datatype Turn = Continued | Slept | Paused | RunFailed

  /** The turns since the last one that did not continue. */
  function TrailingContinues(turns: seq<Turn>): (n: nat)
    ensures n <= |turns|
    ensures forall k :: |turns| - n <= k < |turns| ==> turns[k].Continued?
    ensures n < |turns| ==> !turns[|turns| - n - 1].Continued?
  {
    if turns == [] || !turns[|turns| - 1].Continued? then 0 else 1 + TrailingContinues(turns[..|turns| - 1])
  }

  lemma TrailingNext(turns: seq<Turn>, next: Turn)
    ensures TrailingContinues(turns + [next]) == if next.Continued? then TrailingContinues(turns) + 1 else 0
  {
    assert (turns + [next])[..|turns|] == turns;
  }

  /** No more than `most` continuing turns follow one another. */
  ghost predicate RunsWithin(turns: seq<Turn>, most: nat) {
    forall i, j :: 0 <= i < j <= |turns| && j - i > most ==> Interrupted(turns, i, j)
  }

  ghost predicate Interrupted(turns: seq<Turn>, i: nat, j: nat)
    requires i <= j <= |turns|
  {
    exists k :: i <= k < j && !turns[k].Continued?
  }

  lemma RunsWithinNext(turns: seq<Turn>, next: Turn, most: nat)
    requires RunsWithin(turns, most)
    requires next.Continued? ==> TrailingContinues(turns) + 1 <= most
    ensures RunsWithin(turns + [next], most)
  {
    var more := turns + [next];
    var n := TrailingContinues(turns);
    forall i, j | 0 <= i < j <= |more| && j - i > most ensures Interrupted(more, i, j) {
      if j <= |turns| {
        assert Interrupted(turns, i, j);
        var k :| i <= k < j && !turns[k].Continued?;
        assert !more[k].Continued?;
      } else if next.Continued? {
        assert !more[|turns| - n - 1].Continued?;
      } else {
        assert !more[|turns|].Continued?;
      }
    }
  }

  function StopAfterReply(parsed: Option<Requested>, queuedWakes: seq<QueuedWake>): StopReason {
    if parsed.Some? && parsed.value.customToolRequest then RequiresAction
    else if queuedWakes != [] then Rescheduling else Idle
  }

  function FollowUpKey(sessionId: string): string {
    "follow-up:" + sessionId
  }

  /** The wake by which a continuing turn goes on, one at a time for the session. */
  predicate IsFollowUp(w: QueuedWake, sessionId: string, delaySeconds: int, dueAt: int) {
    && w.reason == "session.follow_up" && w.dedupeKey == Some("follow-up:" + sessionId) && w.priority == Normal
    && w.delaySeconds == delaySeconds && w.dueAt == dueAt
  }

  /** The wake that tries a failed turn again, one at a time for the session and reason. */
  predicate IsRetry(w: QueuedWake, sessionId: string, context: WakeContext, dueAt: int, delayMs: int) {
    && w.reason == context.reason && w.dedupeKey == Some("retry:" + sessionId + ":" + context.reason) && w.priority == Normal
    && w.delaySeconds == delayMs / 1000 && w.dueAt == dueAt && w.note.Some?
    && (context.note.Some? && context.note.value != "" ==> context.note.value <= w.note.value)
  }

  function FollowUpWake(sessionId: string, delaySeconds: int, dueAt: int): QueuedWake {
    QueuedWake(
      "session.follow_up", delaySeconds, Some("Continue the same bounded session thread."),
      Some(FollowUpKey(sessionId)), Normal, dueAt)
  }

  function RetryWake(sessionId: string, context: WakeContext, dueAt: int, errorMessage: string, delayMs: int): QueuedWake {
    var prefix := if Truthy(context.note) then context.note.value + " | " else "";
    QueuedWake(
      context.reason, delayMs / 1000, Some(prefix + "retry after transient provider failure: " + errorMessage),
      Some("retry:" + sessionId + ":" + context.reason), Normal, dueAt)
  }

  class SessionHarness {
    const sessionId: string
    const maxFollowUps: nat
    const defaultFollowUpSeconds: int
    const retryDelayMs: int
    var checkpoint: Option<Checkpoint>
    /** The turns taken and the counter that the session started with. */
    ghost var turns: seq<Turn>
    ghost const startedAt: nat

    function Counter(): nat
      reads this
    {
      if checkpoint.Some? then checkpoint.value.consecutiveFollowUps else 0
    }

    /** The counter is the number of trailing continues, on top of the start until a turn breaks the run. */
    ghost predicate Valid()
      reads this
    {
      && Counter() == TrailingContinues(turns) + (if TrailingContinues(turns) == |turns| then startedAt else 0)
      && RunsWithin(turns, maxFollowUps)
      && (turns != [] ==> Counter() <= maxFollowUps)
    }

    constructor (sessionId: string, maxFollowUps: nat, defaultFollowUpSeconds: int, retryDelayMs: int, checkpoint: Option<Checkpoint>)
      ensures Valid() && turns == [] && this.checkpoint == checkpoint && this.maxFollowUps == maxFollowUps
    {
      this.sessionId, this.maxFollowUps := sessionId, maxFollowUps;
      this.defaultFollowUpSeconds, this.retryDelayMs := defaultFollowUpSeconds, retryDelayMs;
      this.checkpoint := checkpoint;
      turns := [];
      startedAt := if checkpoint.Some? then checkpoint.value.consecutiveFollowUps else 0;
    }

    /** Replaces the checkpoint and notes the turn. */
    method Write(next: Checkpoint, ghost turn: Turn)
      requires Valid()
      requires next.consecutiveFollowUps == if turn.Continued? then Counter() + 1 else 0
      requires turn.Continued? ==> Counter() + 1 <= maxFollowUps
      modifies this
      ensures Valid() && checkpoint == Some(next) && turns == old(turns) + [turn]
    {
      RunsWithinNext(turns, turn, maxFollowUps);
      TrailingNext(turns, turn);
      checkpoint, turns := Some(next), turns + [turn];
    }

    /**
     One turn. Its wakes are at most three from the model plus, exactly when the turn continues,
     one follow-up; it continues only as the model asks and while the counter allows, and fails
     when a due time cannot be printed. However
     many turns are taken, the counter stays within the maximum and so does every run of
     continuing turns.
     */
    method Run(ending: Ending, createdAt: int) returns (queuedWakes: seq<QueuedWake>)
      requires Valid()
      modifies this
      ensures Valid() && Counter() <= maxFollowUps && |turns| == |old(turns)| + 1 && old(turns) <= turns
      ensures checkpoint.Some? && queuedWakes == checkpoint.value.queuedWakes && |queuedWakes| <= MAX_QUEUED_WAKES + 1
      ensures turns[|turns| - 1].Continued? <==>
        && ending.Replied? && Continues(ending.parsed, maxFollowUps, old(Counter()))
        && !DatesThrow(ending.parsed, createdAt, defaultFollowUpSeconds, maxFollowUps, old(Counter()))
      ensures ending.Replied? && turns[|turns| - 1].RunFailed? <==>
        ending.Replied? && DatesThrow(ending.parsed, createdAt, defaultFollowUpSeconds, maxFollowUps, old(Counter()))
      ensures ending.Replied? ==> (checkpoint.value.outcome.Continue? <==> turns[|turns| - 1].Continued?)
      ensures ending.Replied? && !turns[|turns| - 1].RunFailed? ==>
        && ReplyWakes(queuedWakes, ending.parsed, turns[|turns| - 1].Continued?, createdAt)
        && checkpoint.value.stopReason == StopAfterReply(ending.parsed, queuedWakes)
      ensures ending.ConfirmationRequired? ==> checkpoint.value == Checkpoint(Sleep, 0, None, [], RequiresAction)
      ensures ending.ProviderFailed? ==> Counter() == 0 && |queuedWakes| <= 1
      ensures ending.ProviderFailed? ==> (checkpoint.value.outcome.Continue? <==> checkpoint.value.stopReason.Rescheduling?)
      ensures ending.ProviderFailed? && !ending.retryable ==> checkpoint.value == Checkpoint(Sleep, 0, None, [], Idle)
      ensures ending.ProviderFailed? && queuedWakes != [] ==>
        && ending.retryable && !ending.hasPendingEvents && ending.wakeContext.Some?
        && IsRetry(queuedWakes[0], sessionId, ending.wakeContext.value, createdAt + retryDelayMs, retryDelayMs)
        && checkpoint.value.nextWakeAt == Some(createdAt + retryDelayMs)
    {
      match ending {
        case ConfirmationRequired =>
          queuedWakes := [];
          Write(Checkpoint(Sleep, 0, None, [], RequiresAction), Paused);
        case Replied(parsed) =>
          queuedWakes := Reply(parsed, createdAt);
        case ProviderFailed(retryable, hasPendingEvents, wakeContext, errorMessage) =>
          queuedWakes := HandleRunFailure(retryable, hasPendingEvents, wakeContext, errorMessage, createdAt);
      }
    }

    /** The model's wakes first, then the follow-up of a continuing turn. */
    ghost predicate ReplyWakes(queuedWakes: seq<QueuedWake>, parsed: Option<Requested>, continued: bool, createdAt: int) {
      var model, delay := AskedWakes(parsed, createdAt), FollowUpSeconds(parsed, defaultFollowUpSeconds);
      if continued then
        && |queuedWakes| == |model| + 1 && queuedWakes[..|model|] == model
        && IsFollowUp(queuedWakes[|model|], sessionId, delay, createdAt + delay * 1000)
      else queuedWakes == model
    }

    method Reply(parsed: Option<Requested>, createdAt: int) returns (queuedWakes: seq<QueuedWake>)
      requires Valid()
      modifies this
      ensures Valid() && |turns| == |old(turns)| + 1 && old(turns) <= turns
      ensures checkpoint.Some? && queuedWakes == checkpoint.value.queuedWakes && |queuedWakes| <= MAX_QUEUED_WAKES + 1
      ensures turns[|turns| - 1].Continued? <==>
        && Continues(parsed, maxFollowUps, old(Counter()))
        && !DatesThrow(parsed, createdAt, defaultFollowUpSeconds, maxFollowUps, old(Counter()))
      ensures turns[|turns| - 1].RunFailed? <==>
        DatesThrow(parsed, createdAt, defaultFollowUpSeconds, maxFollowUps, old(Counter()))
      ensures checkpoint.value.outcome.Continue? <==> turns[|turns| - 1].Continued?
      ensures turns[|turns| - 1].RunFailed? ==> checkpoint.value == Checkpoint(Sleep, 0, None, [], Idle)
      ensures !turns[|turns| - 1].RunFailed? ==>
        && ReplyWakes(queuedWakes, parsed, turns[|turns| - 1].Continued?, createdAt)
        && checkpoint.value.stopReason == StopAfterReply(parsed, queuedWakes)
        && (checkpoint.value.nextWakeAt.Some? <==> turns[|turns| - 1].Continued?)
        && (checkpoint.value.nextWakeAt.Some? ==> checkpoint.value.nextWakeAt.value == queuedWakes[|queuedWakes| - 1].dueAt)
    {
      var resolved := ResolveLoopDirective(parsed, createdAt, defaultFollowUpSeconds, maxFollowUps, Counter());
      if resolved.None? {
        queuedWakes := HandleRunFailure(false, false, None, "Invalid time value", createdAt);
        return;
      }
      queuedWakes := Persist(parsed, resolved.value, createdAt);
    }

    /** Writes what a resolved directive asks for. */
    method Persist(parsed: Option<Requested>, directive: Directive, createdAt: int) returns (queuedWakes: seq<QueuedWake>)
      requires Valid() && |directive.queuedWakes| <= MAX_QUEUED_WAKES
      requires directive.customToolRequest <==> parsed.Some? && parsed.value.customToolRequest
      requires directive.nextWakeAt.Some? <==> directive.outcome.Continue?
      requires directive.outcome.Continue? ==>
        && Counter() + 1 <= maxFollowUps && directive.followUpSeconds.Some?
        && directive.followUpSeconds.value == FollowUpSeconds(parsed, defaultFollowUpSeconds)
        && directive.nextWakeAt.value == createdAt + directive.followUpSeconds.value * 1000
      requires directive.queuedWakes == AskedWakes(parsed, createdAt)
      modifies this
      ensures Valid() && turns == old(turns) + [if directive.outcome.Continue? then Continued else Slept]
      ensures checkpoint.Some? && queuedWakes == checkpoint.value.queuedWakes && |queuedWakes| <= MAX_QUEUED_WAKES + 1
      ensures checkpoint.value.outcome == directive.outcome
      ensures ReplyWakes(queuedWakes, parsed, directive.outcome.Continue?, createdAt)
      ensures checkpoint.value.nextWakeAt == directive.nextWakeAt
      ensures checkpoint.value.stopReason == StopAfterReply(parsed, queuedWakes)
    {
      queuedWakes := directive.queuedWakes;
      if directive.nextWakeAt.Some? {
        queuedWakes := queuedWakes + [FollowUpWake(sessionId, directive.followUpSeconds.GetOr(0), directive.nextWakeAt.value)];
        assert queuedWakes[..|directive.queuedWakes|] == directive.queuedWakes;
      }
      var stopReason :=
        if directive.customToolRequest then RequiresAction else if |queuedWakes| > 0 then Rescheduling else Idle;
      Write(
        Checkpoint(directive.outcome, if directive.outcome.Continue? then Counter() + 1 else 0,
                   directive.nextWakeAt, queuedWakes, stopReason),
        if directive.outcome.Continue? then Continued else Slept);
    }

    /** A failure resets the counter even where it persists `continue`, and asks for one retry at most. */
    method HandleRunFailure(
        retryable: bool, hasPendingEvents: bool, wakeContext: Option<WakeContext>, errorMessage: string, failedAt: int)
      returns (queuedWakes: seq<QueuedWake>)
      requires Valid()
      modifies this
      ensures Valid() && turns == old(turns) + [RunFailed]
      ensures checkpoint.Some? && queuedWakes == checkpoint.value.queuedWakes && |queuedWakes| <= 1 && Counter() == 0
      ensures checkpoint.value.outcome.Continue? <==> checkpoint.value.stopReason.Rescheduling?
      ensures checkpoint.value.stopReason == if retryable && (hasPendingEvents || queuedWakes != []) then Rescheduling else Idle
      ensures checkpoint.value.nextWakeAt == if retryable then Some(failedAt + retryDelayMs) else None
      ensures queuedWakes != [] <==> retryable && !hasPendingEvents && wakeContext.Some?
      ensures queuedWakes != [] ==>
        IsRetry(queuedWakes[0], sessionId, wakeContext.value, failedAt + retryDelayMs, retryDelayMs)
    {
      var retryAt := if retryable then Some(failedAt + retryDelayMs) else None;
      queuedWakes :=
        if retryable && !hasPendingEvents && wakeContext.Some? then
          [RetryWake(sessionId, wakeContext.value, failedAt + retryDelayMs, errorMessage, retryDelayMs)]
        else [];
      var shouldReschedule := retryable && (hasPendingEvents || |queuedWakes| > 0);
      Write(
        Checkpoint(if shouldReschedule then Continue else Sleep, 0, retryAt, queuedWakes,
                   if shouldReschedule then Rescheduling else Idle),
        RunFailed);
    }
  }
}
