/** The bounded histories that a session's checkpoint and shell state carry. */
module OutcomeHistory {
  import opened Options

  datatype OutcomeDefinition = OutcomeDefinition(title: string, detail: Option<string>, successCriteria: seq<string>)

  datatype Status = MissingOutcome | Blocked | NotReady | Uncertain | Fail | Pass

  datatype GradeStatus = NoOutcome | GradedBlocked | Sleeping | InProgress | DoneCandidate

  datatype Verdict = Verdict(status: Status, summary: string, promotionReady: bool)

  /** The fingerprint serialises the whole definition, so it is modelled by the definition itself. */
  datatype Evaluation = Evaluation(
    evaluatedAt: int, wakeId: Option<string>, iteration: nat, outcomeTitle: Option<string>,
    fingerprint: Option<OutcomeDefinition>, gradeStatus: GradeStatus, verdict: Verdict)

  datatype Input = Input(
    evaluatedAt: int, wakeId: Option<string>, activeOutcome: Option<OutcomeDefinition>, gradeStatus: GradeStatus, verdict: Verdict)

  const MAX_HISTORY := 12

  /** `slice(-n)` for a positive n. */
  function LastN<T>(s: seq<T>, n: nat): (r: seq<T>)
    ensures |r| == (if |s| < n then |s| else n) && r == s[|s| - |r|..]
  {
    if |s| <= n then s else s[|s| - n..]
  }

  /** The iteration of the latest entry with the fingerprint. */
  function LatestIteration(history: seq<Evaluation>, fingerprint: Option<OutcomeDefinition>): Option<nat> {
    if history == [] then None
    else if history[|history| - 1].fingerprint == fingerprint then Some(history[|history| - 1].iteration)
    else LatestIteration(history[..|history| - 1], fingerprint)
  }

  predicate SameWake(history: seq<Evaluation>, input: Input) {
    && history != []
    && history[|history| - 1].wakeId == input.wakeId
    && history[|history| - 1].fingerprint == input.activeOutcome
  }

  predicate SameVerdict(history: seq<Evaluation>, input: Input) {
    && SameWake(history, input)
    && history[|history| - 1].gradeStatus == input.gradeStatus
    && history[|history| - 1].verdict == input.verdict
  }

  function NextIteration(history: seq<Evaluation>, input: Input): nat {
    if SameWake(history, input) then history[|history| - 1].iteration
    else
      var latest := LatestIteration(history, input.activeOutcome);
      if input.activeOutcome.Some? && latest.Some? then latest.value + 1 else 0
  }

  function NextRecord(existing: seq<Evaluation>, input: Input): Evaluation {
    Evaluation(
      input.evaluatedAt, input.wakeId, NextIteration(existing, input),
      if input.activeOutcome.Some? then Some(input.activeOutcome.value.title) else None,
      input.activeOutcome, input.gradeStatus, input.verdict)
  }

  /** The history before it is cut to its window. */
  function Untruncated(existing: seq<Evaluation>, record: Evaluation, replace: bool): seq<Evaluation>
    requires replace ==> existing != []
  {
    (if replace then existing[..|existing| - 1] else existing) + [record]
  }

  function NextOutcomeEvaluationHistory(existing: seq<Evaluation>, input: Input): seq<Evaluation> {
    LastN(Untruncated(existing, NextRecord(existing, input), SameWake(existing, input) || SameVerdict(existing, input)), MAX_HISTORY)
  }

  // ----- the invariant of a history

  /** Entry `j` is the next one after `i` with the same fingerprint. */
  ghost predicate Follows(history: seq<Evaluation>, i: nat, j: nat)
    requires i < j < |history|
  {
    && history[i].fingerprint == history[j].fingerprint
    && forall k :: i < k < j ==> history[k].fingerprint != history[i].fingerprint
  }

  ghost predicate Consecutive(history: seq<Evaluation>) {
    forall i, j :: 0 <= i < j < |history| && Follows(history, i, j) ==> history[j].iteration == history[i].iteration + 1
  }

  ghost predicate NoAdjacentRepeat(history: seq<Evaluation>) {
    forall i :: 0 < i < |history| ==>
      history[i - 1].wakeId != history[i].wakeId || history[i - 1].fingerprint != history[i].fingerprint
  }

  ghost predicate WellKept(history: seq<Evaluation>) {
    && |history| <= MAX_HISTORY && NoAdjacentRepeat(history) && Consecutive(history)
    && forall e :: e in history ==> e.fingerprint.Some?
  }

  lemma {:induction false} LatestIs(history: seq<Evaluation>, fingerprint: Option<OutcomeDefinition>, i: nat)
    requires i < |history| && history[i].fingerprint == fingerprint
    requires forall k :: i < k < |history| ==> history[k].fingerprint != fingerprint
    ensures LatestIteration(history, fingerprint) == Some(history[i].iteration)
  {
    if i < |history| - 1 {
      LatestIs(history[..|history| - 1], fingerprint, i);
    }
  }

  /** The relation only looks at the fingerprints between the two entries. */
  lemma FollowsElsewhere(a: seq<Evaluation>, b: seq<Evaluation>, shift: nat, i: nat, j: nat)
    requires i < j < |b| && j + shift < |a| && Follows(b, i, j)
    requires forall k :: i <= k <= j ==> b[k].fingerprint == a[k + shift].fingerprint
    ensures Follows(a, i + shift, j + shift)
  {
    forall m | i + shift < m < j + shift ensures a[m].fingerprint != a[i + shift].fingerprint {
      assert b[m - shift].fingerprint == a[m].fingerprint;
      assert b[i].fingerprint == a[i + shift].fingerprint;
    }
  }

  /** A window of a well-kept history is well kept. */
  lemma WindowKept(history: seq<Evaluation>, from: nat)
    requires NoAdjacentRepeat(history) && Consecutive(history) && from <= |history|
    ensures NoAdjacentRepeat(history[from..]) && Consecutive(history[from..])
  {
    var window := history[from..];
    forall i, j | 0 <= i < j < |window| && Follows(window, i, j) ensures window[j].iteration == window[i].iteration + 1 {
      FollowsElsewhere(history, window, from, i, j);
    }
  }

  lemma AppendFollows(history: seq<Evaluation>, record: Evaluation, i: nat, j: nat)
    requires Consecutive(history) && i < j <= |history| && Follows(history + [record], i, j)
    requires var latest := LatestIteration(history, record.fingerprint); latest.Some? ==> record.iteration == latest.value + 1
    ensures (history + [record])[j].iteration == (history + [record])[i].iteration + 1
  {
    var more := history + [record];
    if j < |history| {
      FollowsElsewhere(history, more, 0, i, j);
    } else {
      forall k | i < k < |history| ensures history[k].fingerprint != record.fingerprint {
        assert more[k] == history[k];
      }
      LatestIs(history, record.fingerprint, i);
    }
  }

  lemma AppendKept(history: seq<Evaluation>, record: Evaluation)
    requires NoAdjacentRepeat(history) && Consecutive(history)
    requires history != [] ==>
      record.wakeId != history[|history| - 1].wakeId || record.fingerprint != history[|history| - 1].fingerprint
    requires var latest := LatestIteration(history, record.fingerprint); latest.Some? ==> record.iteration == latest.value + 1
    ensures NoAdjacentRepeat(history + [record]) && Consecutive(history + [record])
  {
    var more := history + [record];
    forall i, j | 0 <= i < j < |more| && Follows(more, i, j) ensures more[j].iteration == more[i].iteration + 1 {
      AppendFollows(history, record, i, j);
    }
  }

  /** Replacing the last entry by one of the same wake, fingerprint and iteration. */
  lemma ReplaceLastKept(history: seq<Evaluation>, record: Evaluation)
    requires NoAdjacentRepeat(history) && Consecutive(history) && history != []
    requires record.wakeId == history[|history| - 1].wakeId && record.fingerprint == history[|history| - 1].fingerprint
    requires record.iteration == history[|history| - 1].iteration
    ensures NoAdjacentRepeat(history[..|history| - 1] + [record]) && Consecutive(history[..|history| - 1] + [record])
  {
    var same := history[..|history| - 1] + [record];
    forall i, j | 0 <= i < j < |same| && Follows(same, i, j) ensures same[j].iteration == same[i].iteration + 1 {
      FollowsElsewhere(history, same, 0, i, j);
    }
  }

  lemma UntruncatedKept(history: seq<Evaluation>, input: Input, record: Evaluation)
    requires WellKept(history) && input.activeOutcome.Some?
    requires record.wakeId == input.wakeId && record.fingerprint == input.activeOutcome && record.iteration == NextIteration(history, input)
    ensures NoAdjacentRepeat(Untruncated(history, record, SameWake(history, input)))
    ensures Consecutive(Untruncated(history, record, SameWake(history, input)))
    ensures forall e :: e in Untruncated(history, record, SameWake(history, input)) ==> e.fingerprint.Some?
  {
    if SameWake(history, input) {
      ReplaceLastKept(history, record);
    } else {
      AppendKept(history, record);
    }
  }

  /** Recording an evaluation of an active outcome keeps the history well kept. */
  lemma RecordingKeeps(history: seq<Evaluation>, input: Input)
    requires WellKept(history) && input.activeOutcome.Some?
    ensures WellKept(NextOutcomeEvaluationHistory(history, input))
  {
    UntruncatedKept(history, input, NextRecord(history, input));
    LastKept(Untruncated(history, NextRecord(history, input), SameWake(history, input)));
  }

  lemma LastKept(full: seq<Evaluation>)
    requires NoAdjacentRepeat(full) && Consecutive(full) && forall e :: e in full ==> e.fingerprint.Some?
    ensures WellKept(LastN(full, MAX_HISTORY))
  {
    var from := |full| - |LastN(full, MAX_HISTORY)|;
    WindowKept(full, from);
    WindowWellKept(full[from..], full);
  }

  lemma WindowWellKept(window: seq<Evaluation>, full: seq<Evaluation>)
    requires |window| <= MAX_HISTORY && NoAdjacentRepeat(window) && Consecutive(window)
    requires (forall e :: e in window ==> e in full) && forall e :: e in full ==> e.fingerprint.Some?
    ensures WellKept(window)
  {
  }

  // ----- what recording does

  /** The record says what was evaluated, and when. */
  predicate Records(e: Evaluation, input: Input) {
    && e.evaluatedAt == input.evaluatedAt && e.wakeId == input.wakeId && e.fingerprint == input.activeOutcome
    && e.gradeStatus == input.gradeStatus && e.verdict == input.verdict
    && e.outcomeTitle == if input.activeOutcome.Some? then Some(input.activeOutcome.value.title) else None
  }

  /** The last entry is of the wake and the outcome that are being recorded. */
  predicate RecordedLast(history: seq<Evaluation>, input: Input) {
    && history != []
    && history[|history| - 1].wakeId == input.wakeId && history[|history| - 1].fingerprint == input.activeOutcome
  }

  /** The iteration goes on from the latest entry of the outcome, and starts at zero without one. */
  ghost predicate GoesOnFrom(history: seq<Evaluation>, input: Input, iteration: nat) {
    if RecordedLast(history, input) then iteration == history[|history| - 1].iteration
    else if input.activeOutcome.Some? && exists e :: e in history && e.fingerprint == input.activeOutcome then
      exists i :: 0 <= i < |history| && LastOfOutcome(history, input.activeOutcome, i) && iteration == history[i].iteration + 1
    else iteration == 0
  }

  ghost predicate LastOfOutcome(history: seq<Evaluation>, fingerprint: Option<OutcomeDefinition>, i: nat)
    requires i < |history|
  {
    history[i].fingerprint == fingerprint && forall k :: i < k < |history| ==> history[k].fingerprint != fingerprint
  }

  lemma {:induction false} LatestFound(history: seq<Evaluation>, fingerprint: Option<OutcomeDefinition>) returns (i: nat)
    ensures LatestIteration(history, fingerprint).None? ==> forall e :: e in history ==> e.fingerprint != fingerprint
    ensures LatestIteration(history, fingerprint).Some? ==>
      && i < |history| && LastOfOutcome(history, fingerprint, i)
      && LatestIteration(history, fingerprint).value == history[i].iteration
  {
    i := 0;
    if history != [] {
      var n := |history| - 1;
      if history[n].fingerprint == fingerprint {
        i := n;
      } else {
        i := LatestFound(history[..n], fingerprint);
      }
    }
  }

  lemma IterationGoesOn(history: seq<Evaluation>, input: Input)
    ensures GoesOnFrom(history, input, NextIteration(history, input))
  {
    var i := LatestFound(history, input.activeOutcome);
    if LatestIteration(history, input.activeOutcome).Some? {
      assert history[i] in history;
    }
  }

  /**
   Recording puts one record last, in place of the last entry when that is of the same wake and
   outcome; of the other entries the latest eleven stay as they are.
   */
  lemma RecordingMeans(history: seq<Evaluation>, input: Input)
    ensures
      var kept := if RecordedLast(history, input) then history[..|history| - 1] else history;
      var after := NextOutcomeEvaluationHistory(history, input);
      var n := if |kept| < 11 then |kept| else 11;
      && |after| == n + 1 && after[..n] == kept[|kept| - n..]
      && Records(after[n], input) && GoesOnFrom(history, input, after[n].iteration)
  {
    IterationGoesOn(history, input);
  }

  /** Recording the same evaluation again changes nothing. */
  lemma RecordingIsIdempotent(history: seq<Evaluation>, input: Input)
    ensures
      var once := NextOutcomeEvaluationHistory(history, input);
      NextOutcomeEvaluationHistory(once, input) == once
  {
    var record, once := NextRecord(history, input), NextOutcomeEvaluationHistory(history, input);
    EndsIn(Untruncated(history, record, SameWake(history, input)), record);
    assert SameWake(once, input) && NextRecord(once, input) == record;
  }

  /** A truncated history still ends in its last entry, and is not truncated again. */
  lemma EndsIn(full: seq<Evaluation>, record: Evaluation)
    requires full != [] && full[|full| - 1] == record
    ensures
      var once := LastN(full, MAX_HISTORY);
      once != [] && once[|once| - 1] == record && LastN(Untruncated(once, record, true), MAX_HISTORY) == once
  {
    var once := LastN(full, MAX_HISTORY);
    assert once[..|once| - 1] + [record] == once;
  }

  /** A verdict can only be the same when the wake is, so the second half of the test adds nothing. */
  lemma SameVerdictIsSameWake(history: seq<Evaluation>, input: Input)
    ensures SameWake(history, input) || SameVerdict(history, input) <==> SameWake(history, input)
  {
  }

  // ----- the store

  datatype Checkpoint = Checkpoint(updatedAt: int, lastWakeId: Option<string>, history: seq<Evaluation>)

  class RuntimeMemory {
    var checkpoint: Option<Checkpoint>

    ghost predicate Valid()
      reads this
    {
      checkpoint.Some? ==> WellKept(checkpoint.value.history)
    }

    constructor ()
      ensures Valid() && checkpoint == None
    {
      checkpoint := None;
    }

    /** A new checkpoint carries the history of the one it replaces. */
    method Write(updatedAt: int, wakeId: Option<string>)
      requires Valid()
      modifies this
      ensures Valid() && checkpoint.Some?
      ensures checkpoint.value.updatedAt == updatedAt && checkpoint.value.lastWakeId == wakeId
      ensures checkpoint.value.history == if old(checkpoint).Some? then old(checkpoint.value.history) else []
    {
      checkpoint := Some(Checkpoint(updatedAt, wakeId, if checkpoint.Some? then checkpoint.value.history else []));
    }

    /** Without an active outcome or a checkpoint nothing is recorded. */
    method RecordOutcomeEvaluation(input: Input)
      requires Valid()
      modifies this
      ensures Valid()
      ensures input.activeOutcome.None? || old(checkpoint).None? ==> checkpoint == old(checkpoint)
      ensures input.activeOutcome.Some? && old(checkpoint).Some? ==>
        && checkpoint.Some? && checkpoint.value.history == NextOutcomeEvaluationHistory(old(checkpoint.value.history), input)
        && checkpoint.value.updatedAt == input.evaluatedAt && checkpoint.value.lastWakeId == old(checkpoint.value.lastWakeId)
    {
      if input.activeOutcome.None? || checkpoint.None? {
        return;
      }
      RecordingKeeps(checkpoint.value.history, input);
      checkpoint := Some(Checkpoint(
        input.evaluatedAt, checkpoint.value.lastWakeId, NextOutcomeEvaluationHistory(checkpoint.value.history, input)));
    }
  }

  // ----- recent shell commands

  datatype Command = Command(commandId: int, text: string)

  const MAX_COMMANDS := 5

  function FirstN<T>(s: seq<T>, n: nat): (r: seq<T>)
    ensures |r| == (if |s| < n then |s| else n) && r <= s
  {
    if |s| <= n then s else s[..n]
  }

  /** The records with another id, in order. */
  function Others(records: seq<Command>, id: int): (r: seq<Command>)
    ensures |r| <= |records|
    ensures forall c :: c in r <==> c in records && c.commandId != id
  {
    if records == [] then []
    else (if records[0].commandId != id then [records[0]] else []) + Others(records[1..], id)
  }

  function NextRecentCommands(existing: seq<Command>, lastCommand: Option<Command>): seq<Command> {
    if lastCommand.None? then FirstN(existing, MAX_COMMANDS)
    else FirstN([lastCommand.value] + Others(existing, lastCommand.value.commandId), MAX_COMMANDS)
  }

  /** All commands of a log, each id once with its latest record, the most recently used first. */
  function ByLastUse(log: seq<Command>): seq<Command> {
    if log == [] then []
    else
      var last := log[|log| - 1];
      [last] + Others(ByLastUse(log[..|log| - 1]), last.commandId)
  }

  ghost predicate DistinctIds(records: seq<Command>) {
    forall i, j :: 0 <= i < j < |records| ==> records[i].commandId != records[j].commandId
  }

  lemma {:induction false} OthersAll(records: seq<Command>, id: int)
    requires forall c :: c in records ==> c.commandId != id
    ensures Others(records, id) == records
  {
    if records != [] {
      assert records[0] in records;
      OthersAll(records[1..], id);
      assert records == [records[0]] + records[1..];
    }
  }

  lemma TailDistinct(records: seq<Command>)
    requires DistinctIds(records) && records != []
    ensures DistinctIds(records[1..])
    ensures forall c :: c in records[1..] ==> c.commandId != records[0].commandId
  {
  }

  lemma ConsDistinct(first: Command, rest: seq<Command>)
    requires DistinctIds(rest) && forall c :: c in rest ==> c.commandId != first.commandId
    ensures DistinctIds([first] + rest)
  {
    assert forall k :: 0 <= k < |rest| ==> rest[k] in rest;
  }

  lemma {:induction false} OthersDistinct(records: seq<Command>, id: int)
    requires DistinctIds(records)
    ensures DistinctIds(Others(records, id))
    ensures |Others(records, id)| >= |records| - 1
  {
    if records != [] {
      var rest := Others(records[1..], id);
      TailDistinct(records);
      if records[0].commandId == id {
        OthersAll(records[1..], id);
        assert [] + rest == rest;
      } else {
        OthersDistinct(records[1..], id);
        ConsDistinct(records[0], rest);
      }
    }
  }

  lemma {:induction false} ByLastUseDistinct(log: seq<Command>)
    ensures DistinctIds(ByLastUse(log))
    ensures forall c :: c in log ==> exists d :: d in ByLastUse(log) && d.commandId == c.commandId
  {
    if log != [] {
      var last, front := log[|log| - 1], log[..|log| - 1];
      ByLastUseDistinct(front);
      OthersDistinct(ByLastUse(front), last.commandId);
      var more := Others(ByLastUse(front), last.commandId);
      forall c | c in log ensures exists d :: d in ByLastUse(log) && d.commandId == c.commandId {
        if c.commandId == last.commandId {
          assert last in ByLastUse(log);
        } else {
          assert c in front;
          var d :| d in ByLastUse(front) && d.commandId == c.commandId;
          assert d in more;
          assert d in ByLastUse(log);
        }
      }
    }
  }

  /** The command's record was written at `m`, and its id was not used after that. */
  ghost predicate LastUse(log: seq<Command>, c: Command, m: nat) {
    m < |log| && log[m] == c && forall k :: m < k < |log| ==> log[k].commandId != c.commandId
  }

  /** `at` are the times of last use of the records, the latest first. */
  ghost predicate UsedAt(log: seq<Command>, records: seq<Command>, at: seq<nat>) {
    && |at| == |records| && (forall k :: 0 <= k < |at| ==> LastUse(log, records[k], at[k]))
    && forall i, j :: 0 <= i < j < |at| ==> at[i] > at[j]
  }

  lemma LastUseStays(log: seq<Command>, last: Command, c: Command, m: nat)
    requires LastUse(log, c, m) && c.commandId != last.commandId
    ensures LastUse(log + [last], c, m)
  {
  }

  lemma ConsUsedAt(log: seq<Command>, c: Command, m: nat, records: seq<Command>, at: seq<nat>)
    requires LastUse(log, c, m) && UsedAt(log, records, at) && forall a :: a in at ==> a < m
    ensures UsedAt(log, [c] + records, [m] + at)
  {
    var all, times := [c] + records, [m] + at;
    forall k | 0 <= k < |times| ensures LastUse(log, all[k], times[k]) {
      assert k > 0 ==> all[k] == records[k - 1] && times[k] == at[k - 1];
    }
    forall i, j | 0 <= i < j < |times| ensures times[i] > times[j] {
      assert times[j] == at[j - 1] && at[j - 1] in at;
    }
  }

  lemma TailUsedAt(log: seq<Command>, records: seq<Command>, at: seq<nat>)
    requires UsedAt(log, records, at) && records != []
    ensures UsedAt(log, records[1..], at[1..]) && LastUse(log, records[0], at[0])
    ensures forall a :: a in at[1..] ==> a < at[0] && a in at
  {
  }

  lemma {:induction false} OthersUsedAt(log: seq<Command>, last: Command, records: seq<Command>, at: seq<nat>) returns (more: seq<nat>)
    requires UsedAt(log, records, at)
    ensures UsedAt(log + [last], Others(records, last.commandId), more)
    ensures forall m :: m in more ==> m in at
  {
    if records == [] {
      more := [];
    } else {
      TailUsedAt(log, records, at);
      var others := Others(records[1..], last.commandId);
      more := OthersUsedAt(log, last, records[1..], at[1..]);
      if records[0].commandId != last.commandId {
        LastUseStays(log, last, records[0], at[0]);
        ConsUsedAt(log + [last], records[0], at[0], others, more);
        more := [at[0]] + more;
      } else {
        assert [] + others == others;
      }
    }
  }

  /** Each command stands with its last record, by the time of its last use, the most recent first. */
  lemma {:induction false} ByLastUseMeans(log: seq<Command>) returns (at: seq<nat>)
    ensures UsedAt(log, ByLastUse(log), at)
  {
    if log == [] {
      at := [];
    } else {
      var n := |log| - 1;
      var front := log[..n];
      var before := ByLastUseMeans(front);
      var more := OthersUsedAt(front, log[n], ByLastUse(front), before);
      assert log == front + [log[n]];
      InRange(front, ByLastUse(front), before);
      ConsUsedAt(log, log[n], n, Others(ByLastUse(front), log[n].commandId), more);
      at := [n] + more;
    }
  }

  lemma InRange(log: seq<Command>, records: seq<Command>, at: seq<nat>)
    requires UsedAt(log, records, at)
    ensures forall a :: a in at ==> a < |log|
  {
    assert forall k :: 0 <= k < |at| ==> LastUse(log, records[k], at[k]);
  }

  lemma {:induction false} OthersAppend(a: seq<Command>, b: seq<Command>, id: int)
    ensures Others(a + b, id) == Others(a, id) + Others(b, id)
  {
    if a == [] {
      assert a + b == b;
    } else {
      var first := if a[0].commandId != id then [a[0]] else [];
      calc {
        Others(a + b, id);
        { assert (a + b)[0] == a[0] && (a + b)[1..] == a[1..] + b; }
        first + Others(a[1..] + b, id);
        { OthersAppend(a[1..], b, id); }
        first + (Others(a[1..], id) + Others(b, id));
        (first + Others(a[1..], id)) + Others(b, id);
      }
    }
  }

  lemma FirstNOfLong<T>(a: seq<T>, b: seq<T>, n: nat)
    requires |a| >= n
    ensures FirstN(a + b, n) == FirstN(a, n)
  {
  }

  /** Truncating before removing an id leaves the same first records, as one more was kept than is needed. */
  lemma TruncationCommutes(records: seq<Command>, id: int, n: nat)
    requires DistinctIds(records)
    ensures FirstN(Others(FirstN(records, n + 1), id), n) == FirstN(Others(records, id), n)
  {
    if |records| > n + 1 {
      var kept, dropped := records[..n + 1], records[n + 1..];
      assert records == kept + dropped;
      OthersAppend(kept, dropped, id);
      OthersDistinct(kept, id);
      FirstNOfLong(Others(kept, id), Others(dropped, id), n);
    }
  }

  /** After any run of commands the five kept are the five most recently used of the whole run. */
  lemma {:induction false} RecentCommandsAreMostRecent(log: seq<Command>)
    ensures RecentAfter(log) == FirstN(ByLastUse(log), 5)
    ensures DistinctIds(RecentAfter(log))
  {
    ByLastUseDistinct(log);
    if log != [] {
      var last, front := log[|log| - 1], log[..|log| - 1];
      RecentCommandsAreMostRecent(front);
      ByLastUseDistinct(front);
      TruncationCommutes(ByLastUse(front), last.commandId, MAX_COMMANDS - 1);
      FirstNCons(last, Others(FirstN(ByLastUse(front), MAX_COMMANDS), last.commandId), MAX_COMMANDS - 1);
      FirstNCons(last, Others(ByLastUse(front), last.commandId), MAX_COMMANDS - 1);
    }
  }

  lemma FirstNCons<T>(x: T, s: seq<T>, n: nat)
    ensures FirstN([x] + s, n + 1) == [x] + FirstN(s, n)
  {
  }

  function RecentAfter(log: seq<Command>): seq<Command> {
    if log == [] then [] else NextRecentCommands(RecentAfter(log[..|log| - 1]), Some(log[|log| - 1]))
  }
}
