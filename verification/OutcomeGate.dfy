/**
 The gate in front of promotion: a grade of the durable state, an evaluation of the latest
 wake, and a guard for a shell that is still busy.
 */
module OutcomeGate {
  import opened Options
  import opened Strings
  import opened Sorting
  import opened Grouping
  import opened OutcomeHistory

  datatype SpanKind = WakeSpan | ToolSpan
  datatype SpanResult = Success | Error | BlockedResult
  datatype StopReason = Idle | Rescheduling | RequiresAction | OtherReason

  datatype Kind =
    | DefineOutcome(outcome: OutcomeDefinition)
    | AgentMessage(message: string, summary: string)
    | SpanCompleted(spanKind: SpanKind, result: SpanResult)
    | StatusIdle(reason: StopReason)
    | OtherKind

  datatype Event = Event(createdAt: int, wakeId: Option<string>, kind: Kind)

  datatype Snapshot = Snapshot(
    events: seq<Event>, stopReason: StopReason, pendingToolConfirmation: bool, pendingCustomTool: bool)

  datatype GateCheckpoint = GateCheckpoint(
    activeOutcome: Option<OutcomeDefinition>, lastSummary: string, queuedWakes: nat, nextWakeAt: Option<int>,
    lastWakeId: Option<string>, history: seq<OutcomeHistory.Evaluation>)

  datatype Memory = Memory(checkpoint: Option<GateCheckpoint>, sessionState: string, workingBuffer: string)

  datatype LiveShell = LiveShell(active: bool, busy: bool)

  /** The text search behind a criterion: a query is made of it and scores at least four. */
  type Matcher = (string, string) -> bool

  // ----- searching a list from its end

  function FindLast(events: seq<Event>, p: Event -> bool): Option<Event> {
    if events == [] then None
    else if p(events[|events| - 1]) then Some(events[|events| - 1])
    else FindLast(events[..|events| - 1], p)
  }

  predicate IsOutcome(e: Event) { e.kind.DefineOutcome? }
  predicate IsMessage(e: Event) { e.kind.AgentMessage? }
  predicate IsWakeCompletion(e: Event) { e.kind.SpanCompleted? && e.kind.spanKind.WakeSpan? }
  predicate IsIdle(e: Event) { e.kind.StatusIdle? }
  predicate Succeeded(e: Event) { e.kind.SpanCompleted? && e.kind.result.Success? }
  predicate PlainlyIdle(e: Event) { e.kind.StatusIdle? && e.kind.reason.Idle? }
  predicate IsToolError(e: Event) { e.kind.SpanCompleted? && e.kind.spanKind.ToolSpan? && e.kind.result.Error? }

  // ----- the grade

  function DeriveSessionActiveOutcome(snapshot: Snapshot, memory: Memory): Option<OutcomeDefinition> {
    var defined := FindLast(snapshot.events, IsOutcome);
    if defined.Some? && defined.value.kind.DefineOutcome? then Some(defined.value.kind.outcome)
    else if memory.checkpoint.Some? then memory.checkpoint.value.activeOutcome else None
  }

  predicate AwaitsAction(snapshot: Snapshot) {
    snapshot.pendingToolConfirmation || snapshot.pendingCustomTool || snapshot.stopReason.RequiresAction?
  }

  predicate AwaitsWake(memory: Memory) {
    memory.checkpoint.Some? && (memory.checkpoint.value.queuedWakes > 0 || memory.checkpoint.value.nextWakeAt.Some?)
  }

  function NonBlank(texts: seq<string>): seq<string> {
    Filter(texts, NotBlank)
  }

  predicate NotBlank(text: string) {
    Trim(text) != ""
  }

  function Searchable(snapshot: Snapshot, memory: Memory): string {
    var summary := if memory.checkpoint.Some? then memory.checkpoint.value.lastSummary else "";
    var message := FindLast(snapshot.events, IsMessage);
    var latest := if message.Some? && message.value.kind.AgentMessage? then message.value.kind.message else "";
    Join(NonBlank([summary, memory.sessionState, memory.workingBuffer, latest]), "\n")
  }

  function Matching(criteria: seq<string>, searchable: string, matches: Matcher): seq<string> {
    Filter(criteria, (criterion: string) => matches(searchable, criterion))
  }

  datatype Grade = Grade(status: GradeStatus, matchedCriteria: nat, totalCriteria: nat)

  function GradeSessionOutcome(snapshot: Snapshot, memory: Memory, matches: Matcher): Grade {
    var activeOutcome := DeriveSessionActiveOutcome(snapshot, memory);
    if activeOutcome.None? then Grade(NoOutcome, 0, 0)
    else if AwaitsAction(snapshot) then Grade(GradedBlocked, 0, |activeOutcome.value.successCriteria|)
    else
      var searchable := Searchable(snapshot, memory);
      var criteria := NonBlank(activeOutcome.value.successCriteria);
      var matched := |Matching(criteria, searchable, matches)|;
      if AwaitsWake(memory) then Grade(Sleeping, matched, |criteria|)
      else if |criteria| > 0 && matched == |criteria| && snapshot.stopReason.Idle? then Grade(DoneCandidate, matched, |criteria|)
      else Grade(InProgress, matched, |criteria|)
  }

  // ----- the latest wake

  function WakeOf(e: Event): string {
    e.wakeId.GetOr("")
  }

  predicate Traced(e: Event) {
    e.wakeId.Some? && Trim(e.wakeId.value) != ""
  }

  function UpdatedAt(events: seq<Event>, wake: string): (latest: Option<int>)
    ensures latest.Some? <==> exists e :: e in events && e.wakeId == Some(wake)
    ensures latest.Some? ==> forall e :: e in events && e.wakeId == Some(wake) ==> e.createdAt <= latest.value
    ensures latest.Some? ==> exists e :: e in events && e.wakeId == Some(wake) && e.createdAt == latest.value
  {
    if events == [] then None
    else
      var last := events[|events| - 1];
      var before := UpdatedAt(events[..|events| - 1], wake);
      assert last in events;
      if last.wakeId != Some(wake) then before
      else if before.Some? && before.value >= last.createdAt then before
      else Some(last.createdAt)
  }

  predicate UpdatedNoEarlier(events: seq<Event>, a: string, b: string) {
    UpdatedAt(events, a).GetOr(0) >= UpdatedAt(events, b).GetOr(0)
  }

  /** The wakes of the trace, the most recently updated first. */
  function SummarizeSessionTraces(events: seq<Event>): seq<string> {
    StableSort(Keys(Filter(events, Traced), WakeOf), NoOlder(events))
  }

  function NoOlder(events: seq<Event>): (string, string) -> bool {
    (a, b) => UpdatedNoEarlier(events, a, b)
  }

  function LatestWakeId(snapshot: Snapshot, memory: Memory): Option<string> {
    var recorded := if memory.checkpoint.Some? then memory.checkpoint.value.lastWakeId else None;
    if recorded.Some? then recorded
    else
      var traces := SummarizeSessionTraces(snapshot.events);
      if traces == [] then None else Some(traces[0])
  }

  /** The fallback names a wake of the trace that no other wake's events postdate. */
  lemma TraceIsLatest(events: seq<Event>)
    requires SummarizeSessionTraces(events) != []
    ensures
      var wake := SummarizeSessionTraces(events)[0];
      forall e :: e in events && Traced(e) ==> UpdatedNoEarlier(events, wake, WakeOf(e))
  {
    var newer := NoOlder(events);
    var keys := Keys(Filter(events, Traced), WakeOf);
    assert TotalPreorder(newer);
    SortSorts(keys, newer);
    SortPermutes(keys, newer);
    var traces := SummarizeSessionTraces(events);
    forall e | e in events && Traced(e) ensures UpdatedNoEarlier(events, traces[0], WakeOf(e)) {
      assert e in Filter(events, Traced);
      assert WakeOf(e) in traces;
      var k :| 0 <= k < |traces| && traces[k] == WakeOf(e);
      if k > 0 {
        assert newer(traces[0], traces[k]);
      }
    }
  }

  predicate NoLater(a: Event, b: Event) {
    a.createdAt <= b.createdAt
  }

  predicate OfWake(e: Event, wake: string) {
    e.wakeId == Some(wake)
  }

  function LatestWakeEvents(snapshot: Snapshot, memory: Memory): seq<Event> {
    var wake := LatestWakeId(snapshot, memory);
    if !Truthy(wake) then []
    else WakeEventsOf(snapshot.events, wake.value)
  }

  function WakeEventsOf(events: seq<Event>, wake: string): seq<Event> {
    StableSort(Filter(events, OfThisWake(wake)), NoLater)
  }

  // ----- the evaluation

  datatype Trend = FirstIteration | Improving | Stable | Regressing

  function EvaluationScore(status: Status): nat {
    match status
    case Pass => 5
    case Uncertain => 4
    case NotReady => 3
    case Blocked => 2
    case Fail => 1
    case MissingOutcome => 0
  }

  function Posture(status: Status, promotionReady: bool): nat {
    EvaluationScore(status) + if promotionReady then 1 else 0
  }

  /** The posture of the latest recorded evaluation of the same outcome. */
  function PreviousPosture(history: seq<OutcomeHistory.Evaluation>, outcome: OutcomeDefinition): Option<nat> {
    if history == [] then None
    else
      var last := history[|history| - 1];
      if last.fingerprint == Some(outcome) then Some(Posture(last.verdict.status, last.verdict.promotionReady))
      else PreviousPosture(history[..|history| - 1], outcome)
  }

  function ResolveTrend(previous: Option<nat>, status: Status, promotionReady: bool): Trend {
    if previous.None? then FirstIteration
    else if Posture(status, promotionReady) > previous.value then Improving
    else if Posture(status, promotionReady) < previous.value then Regressing
    else Stable
  }

  datatype Evaluated = Evaluated(status: Status, promotionReady: bool, trend: Trend)

  function Previous(outcome: OutcomeDefinition, memory: Memory): Option<nat> {
    PreviousPosture(if memory.checkpoint.Some? then memory.checkpoint.value.history else [], outcome)
  }

  function EvaluateDoneCandidate(outcome: OutcomeDefinition, snapshot: Snapshot, memory: Memory): Evaluated {
    var wakeEvents := LatestWakeEvents(snapshot, memory);
    var completion := FindLast(wakeEvents, IsWakeCompletion);
    var idle := FindLast(wakeEvents, IsIdle);
    var toolError := FindLast(wakeEvents, IsToolError);
    var previous := Previous(outcome, memory);
    if toolError.Some? then Evaluated(Fail, false, ResolveTrend(previous, Fail, false))
    else if completion.Some? && Succeeded(completion.value) && idle.Some? && PlainlyIdle(idle.value)
    then Evaluated(Pass, true, ResolveTrend(previous, Pass, true))
    else Evaluated(Uncertain, false, ResolveTrend(previous, Uncertain, false))
  }

  function EvaluateSessionOutcome(snapshot: Snapshot, memory: Memory, matches: Matcher): Evaluated {
    var activeOutcome := DeriveSessionActiveOutcome(snapshot, memory);
    var grade := GradeSessionOutcome(snapshot, memory, matches);
    if activeOutcome.None? then Evaluated(MissingOutcome, false, FirstIteration)
    else
      var previous := Previous(activeOutcome.value, memory);
      if grade.status.GradedBlocked? then Evaluated(Blocked, false, ResolveTrend(previous, Blocked, false))
      else if grade.status.Sleeping? || grade.status.InProgress? then Evaluated(NotReady, false, ResolveTrend(previous, NotReady, false))
      else EvaluateDoneCandidate(activeOutcome.value, snapshot, memory)
  }

  predicate Busy(shell: Option<LiveShell>) {
    shell.Some? && shell.value.active && shell.value.busy
  }

  function ApplyLiveShellOutcomeGuard(evaluation: Evaluated, shell: Option<LiveShell>): Evaluated {
    if !Busy(shell) || evaluation.status.MissingOutcome? || evaluation.status.Blocked? || evaluation.status.Fail? then evaluation
    else evaluation.(status := NotReady, promotionReady := false)
  }

  // ----- the last event of a kind, without sorting

  /** `events[i]` has the property and is the latest such event, the last one among equals. */
  ghost predicate IsLatest(events: seq<Event>, p: Event -> bool, i: nat) {
    && i < |events| && p(events[i])
    && forall j :: 0 <= j < |events| && p(events[j]) ==>
         events[j].createdAt < events[i].createdAt || (events[j].createdAt == events[i].createdAt && j <= i)
  }

  /** The latest event with the property, by scanning: an earlier entry wins only when it is strictly later. */
  function LatestOf(events: seq<Event>, p: Event -> bool): Option<Event> {
    if events == [] then None
    else
      var rest := LatestOf(events[1..], p);
      if p(events[0]) && (rest.None? || rest.value.createdAt < events[0].createdAt) then Some(events[0]) else rest
  }

  function Any(): Event -> bool {
    _ => true
  }

  lemma {:induction false} LatestOfIs(events: seq<Event>, p: Event -> bool) returns (i: nat)
    ensures LatestOf(events, p).None? ==> forall e :: e in events ==> !p(e)
    ensures LatestOf(events, p).Some? ==> IsLatest(events, p, i) && events[i] == LatestOf(events, p).value
  {
    i := 0;
    if events != [] {
      var k := LatestOfIs(events[1..], p);
      var rest := LatestOf(events[1..], p);
      if p(events[0]) && (rest.None? || rest.value.createdAt < events[0].createdAt) {
        forall j | 0 < j < |events| && p(events[j]) ensures events[j].createdAt < events[0].createdAt {
          assert events[1..][j - 1] == events[j];
          assert events[j] in events[1..];
        }
      } else {
        i := k + 1;
        forall j | 0 <= j < |events| && p(events[j]) && rest.Some?
          ensures events[j].createdAt < events[i].createdAt || (events[j].createdAt == events[i].createdAt && j <= i)
        {
          if j > 0 {
            assert events[1..][j - 1] == events[j];
          }
        }
      }
    }
  }

  lemma LatestIsUnique(events: seq<Event>, p: Event -> bool, i: nat, j: nat)
    requires IsLatest(events, p, i) && IsLatest(events, p, j)
    ensures i == j
  {
  }

  lemma InsertLast(x: Event, s: seq<Event>)
    requires Sorted(s, NoLater)
    ensures Insert(x, s, NoLater) != []
    ensures
      var t := Insert(x, s, NoLater);
      t[|t| - 1] == if s == [] || s[|s| - 1].createdAt < x.createdAt then x else s[|s| - 1]
  {
    if s != [] && !NoLater(x, s[0]) {
      InsertLast(x, s[1..]);
    }
  }

  /** The last event of a stable sort is the latest one, the last among equals. */
  lemma {:induction false} LastOfSorted(events: seq<Event>)
    ensures
      var sorted := StableSort(events, NoLater);
      LatestOf(events, Any()) == if sorted == [] then None else Some(sorted[|sorted| - 1])
  {
    if events != [] {
      LastOfSorted(events[1..]);
      assert TotalPreorder(NoLater);
      SortSorts(events[1..], NoLater);
      InsertLast(events[0], StableSort(events[1..], NoLater));
    }
  }

  lemma {:induction false} LatestOfFiltered(events: seq<Event>, p: Event -> bool)
    ensures LatestOf(Filter(events, p), Any()) == LatestOf(events, p)
  {
    if events != [] {
      LatestOfFiltered(events[1..], p);
      var rest := Filter(events[1..], p);
      if p(events[0]) {
        assert ([events[0]] + rest)[1..] == rest;
      } else {
        assert [] + rest == rest;
      }
    }
  }

  lemma {:induction false} FindLastInFilter(events: seq<Event>, p: Event -> bool)
    ensures FindLast(events, p) == (var f := Filter(events, p); if f == [] then None else Some(f[|f| - 1]))
  {
    if events != [] {
      var front, last := events[..|events| - 1], events[|events| - 1];
      FindLastInFilter(front, p);
      FilterAppend(front, [last], p);
      assert front + [last] == events;
    }
  }

  lemma {:induction false} FilterTwice(events: seq<Event>, p: Event -> bool, q: Event -> bool, both: Event -> bool)
    requires forall e :: both(e) <==> p(e) && q(e)
    ensures Filter(Filter(events, p), q) == Filter(events, both)
  {
    if events != [] {
      FilterTwice(events[1..], p, q, both);
      var rest := Filter(events[1..], p);
      if p(events[0]) {
        assert ([events[0]] + rest)[1..] == rest;
      } else {
        assert [] + rest == rest;
      }
    }
  }

  function OfWakeAnd(wake: string, p: Event -> bool): Event -> bool {
    e => OfWake(e, wake) && p(e)
  }

  lemma OfWakeAndMeans(wake: string, p: Event -> bool, e: Event)
    ensures OfWakeAnd(wake, p)(e) <==> OfWake(e, wake) && p(e)
  {
  }

  function OfThisWake(wake: string): Event -> bool {
    e => OfWake(e, wake)
  }

  /** What the evaluation finds by sorting and searching backwards is the latest event of the wake. */
  lemma FoundIsLatest(events: seq<Event>, wake: string, p: Event -> bool)
    ensures FindLast(WakeEventsOf(events, wake), p) == LatestOf(events, OfWakeAnd(wake, p))
  {
    var ofWake := OfThisWake(wake);
    var both := OfWakeAnd(wake, p);
    assert TotalPreorder(NoLater);
    calc {
      FindLast(StableSort(Filter(events, ofWake), NoLater), p);
      { FindLastInFilter(StableSort(Filter(events, ofWake), NoLater), p); }
      LastOf(Filter(StableSort(Filter(events, ofWake), NoLater), p));
      { FilterCommutesWithSort(Filter(events, ofWake), p, NoLater); }
      LastOf(StableSort(Filter(Filter(events, ofWake), p), NoLater));
      { FilterTwice(events, ofWake, p, both); }
      LastOf(StableSort(Filter(events, both), NoLater));
      { LastOfSorted(Filter(events, both)); }
      LatestOf(Filter(events, both), Any());
      { LatestOfFiltered(events, both); }
      LatestOf(events, both);
    }
  }

  function LastOf(s: seq<Event>): Option<Event> {
    if s == [] then None else Some(s[|s| - 1])
  }

  /** The latest event with `p` exists and has `q`. */
  ghost predicate LatestHas(events: seq<Event>, p: Event -> bool, q: Event -> bool) {
    exists i: nat :: IsLatest(events, p, i) && q(events[i])
  }

  lemma LatestHasMeans(events: seq<Event>, p: Event -> bool, q: Event -> bool)
    ensures LatestHas(events, p, q) <==> LatestOf(events, p).Some? && q(LatestOf(events, p).value)
    ensures LatestOf(events, p).None? <==> forall e :: e in events ==> !p(e)
  {
    var k := LatestOfIs(events, p);
    if LatestOf(events, p).Some? {
      assert events[k] in events;
    }
    if LatestHas(events, p, q) {
      var i: nat :| IsLatest(events, p, i) && q(events[i]);
      assert events[i] in events;
      LatestIsUnique(events, p, i, k);
    }
  }

  // ----- what the session's records say, without searching

  /** The last event that defines an outcome gives the active one; without any, the checkpoint does. */
  ghost predicate IsActiveOutcome(snapshot: Snapshot, memory: Memory, outcome: Option<OutcomeDefinition>) {
    var events := snapshot.events;
    if exists e :: e in events && e.kind.DefineOutcome? then
      exists i :: 0 <= i < |events| && LastDefinition(events, i) && outcome == Some(events[i].kind.outcome)
    else outcome == if memory.checkpoint.Some? then memory.checkpoint.value.activeOutcome else None
  }

  ghost predicate LastDefinition(events: seq<Event>, i: nat)
    requires i < |events|
  {
    events[i].kind.DefineOutcome? && forall j :: i < j < |events| ==> !events[j].kind.DefineOutcome?
  }

  /** The text of the last message of the agent, empty without any. */
  ghost predicate IsLastMessage(events: seq<Event>, message: string) {
    if exists e :: e in events && e.kind.AgentMessage? then
      exists i :: 0 <= i < |events| && LastMessageAt(events, i) && message == events[i].kind.message
    else message == ""
  }

  ghost predicate LastMessageAt(events: seq<Event>, i: nat)
    requires i < |events|
  {
    events[i].kind.AgentMessage? && forall j :: i < j < |events| ==> !events[j].kind.AgentMessage?
  }

  /** Those of the checkpoint's summary, the session state, the working buffer and the last message that hold text, one per line. */
  ghost predicate IsSearchable(snapshot: Snapshot, memory: Memory, text: string) {
    exists message, at, parts ::
      IsLastMessage(snapshot.events, message) && SearchableParts(memory, message, at, parts) && text == Join(parts, "\n")
  }

  ghost predicate SearchableParts(memory: Memory, message: string, at: seq<nat>, parts: seq<string>) {
    var summary := if memory.checkpoint.Some? then memory.checkpoint.value.lastSummary else "";
    var texts := [summary, memory.sessionState, memory.workingBuffer, message];
    PositionsOf(texts, HasText, at) && ElementsAt(texts, at, parts)
  }

  predicate NamesWake(e: Event) {
    e.wakeId.Some? && HasText(e.wakeId.value)
  }

  ghost predicate FirstNames(events: seq<Event>, i: nat, wake: string) {
    i < |events| && events[i].wakeId == Some(wake) && forall h :: 0 <= h < i ==> events[h].wakeId != Some(wake)
  }

  /** No event of any wake is later. */
  ghost predicate NewestOfWakes(events: seq<Event>, k: nat) {
    && k < |events| && NamesWake(events[k])
    && forall j :: 0 <= j < |events| && NamesWake(events[j]) ==> events[j].createdAt <= events[k].createdAt
  }

  /** The wake of the newest event; of several such wakes, the one named first. */
  ghost predicate IsTraceWake(events: seq<Event>, wake: string) {
    exists i: nat, k: nat ::
      && FirstNames(events, i, wake) && NewestOfWakes(events, k) && events[k].wakeId == Some(wake)
      && NamedBeforeRivals(events, i)
  }

  /** No wake with a newest event is named before `i`. */
  ghost predicate NamedBeforeRivals(events: seq<Event>, i: nat) {
    forall j: nat, h: nat ::
      NewestOfWakes(events, j) && h < |events| && events[h].wakeId == events[j].wakeId ==> i <= h
  }

  /** The wake on record, or else that of the trace, if any event names one. */
  ghost predicate IsLatestWake(snapshot: Snapshot, memory: Memory, wake: Option<string>) {
    if memory.checkpoint.Some? && memory.checkpoint.value.lastWakeId.Some? then wake == memory.checkpoint.value.lastWakeId
    else if exists e :: e in snapshot.events && NamesWake(e) then wake.Some? && IsTraceWake(snapshot.events, wake.value)
    else wake.None?
  }

  // ----- the searches find exactly that

  lemma {:induction false} FindLastAt(events: seq<Event>, p: Event -> bool) returns (i: nat)
    ensures FindLast(events, p).None? ==> forall e :: e in events ==> !p(e)
    ensures FindLast(events, p).Some? ==>
              && i < |events| && p(events[i]) && events[i] == FindLast(events, p).value
              && forall j :: i < j < |events| ==> !p(events[j])
  {
    i := 0;
    if events != [] {
      var n := |events| - 1;
      if p(events[n]) {
        i := n;
      } else {
        i := FindLastAt(events[..n], p);
      }
    }
  }

  lemma ActiveOutcomeMeans(snapshot: Snapshot, memory: Memory, outcome: Option<OutcomeDefinition>)
    ensures IsActiveOutcome(snapshot, memory, outcome) <==> outcome == DeriveSessionActiveOutcome(snapshot, memory)
  {
    var events := snapshot.events;
    var i := FindLastAt(events, IsOutcome);
    if FindLast(events, IsOutcome).Some? {
      assert events[i] in events && LastDefinition(events, i);
      assert forall k :: 0 <= k < |events| && LastDefinition(events, k) ==> k == i;
    }
  }

  lemma LastMessageMeans(events: seq<Event>, message: string)
    ensures IsLastMessage(events, message) <==>
      message == (var found := FindLast(events, IsMessage);
                  if found.Some? && found.value.kind.AgentMessage? then found.value.kind.message else "")
  {
    var i := FindLastAt(events, IsMessage);
    if FindLast(events, IsMessage).Some? {
      assert events[i] in events && LastMessageAt(events, i);
      assert forall k :: 0 <= k < |events| && LastMessageAt(events, k) ==> k == i;
    }
  }

  lemma NonBlankAt(texts: seq<string>, at: seq<nat>, parts: seq<string>)
    requires PositionsOf(texts, HasText, at)
    ensures ElementsAt(texts, at, parts) <==> parts == NonBlank(texts)
  {
    forall text ensures NotBlank(text) <==> HasText(text) {
      TrimLeavesText(text);
    }
    FilterAt(texts, NotBlank, at);
  }

  lemma SearchableMeans(snapshot: Snapshot, memory: Memory, text: string)
    ensures IsSearchable(snapshot, memory, text) <==> text == Searchable(snapshot, memory)
  {
    var found := FindLast(snapshot.events, IsMessage);
    var latest := if found.Some? && found.value.kind.AgentMessage? then found.value.kind.message else "";
    LastMessageMeans(snapshot.events, latest);
    var summary := if memory.checkpoint.Some? then memory.checkpoint.value.lastSummary else "";
    var texts := [summary, memory.sessionState, memory.workingBuffer, latest];
    var at := PositionsExist(texts, HasText);
    NonBlankAt(texts, at, NonBlank(texts));
    assert SearchableParts(memory, latest, at, NonBlank(texts));
    if IsSearchable(snapshot, memory, text) {
      var message, at', parts :| IsLastMessage(snapshot.events, message) && SearchableParts(memory, message, at', parts)
                                 && text == Join(parts, "\n");
      LastMessageMeans(snapshot.events, message);
      NonBlankAt(texts, at', parts);
    }
  }

  lemma TracedNamesWake(e: Event)
    ensures Traced(e) <==> NamesWake(e)
  {
    if e.wakeId.Some? {
      TrimLeavesText(e.wakeId.value);
    }
  }

  lemma {:induction false} FirstNamed(events: seq<Event>, wake: string, k: nat) returns (i: nat)
    requires k < |events| && events[k].wakeId == Some(wake)
    ensures FirstNames(events, i, wake)
  {
    if h: nat :| h < k && events[h].wakeId == Some(wake) {
      i := FirstNamed(events, wake, h);
    } else {
      i := k;
    }
  }

  /** The trace's first wake has an event that no event of a wake postdates. */
  lemma TraceIsNewest(events: seq<Event>, wake: string) returns (k: nat)
    requires exists e :: e in events && Traced(e) && e.wakeId == Some(wake)
    requires forall e :: e in events && Traced(e) ==> UpdatedNoEarlier(events, wake, WakeOf(e))
    ensures NewestOfWakes(events, k) && events[k].wakeId == Some(wake)
    ensures UpdatedAt(events, wake) == Some(events[k].createdAt)
  {
    var e :| e in events && e.wakeId == Some(wake) && UpdatedAt(events, wake) == Some(e.createdAt);
    k :| 0 <= k < |events| && events[k] == e;
    TracedNamesWake(e);
    forall j | 0 <= j < |events| && NamesWake(events[j]) ensures events[j].createdAt <= e.createdAt {
      TracedNamesWake(events[j]);
      assert events[j] in events && events[j].wakeId == Some(WakeOf(events[j]));
    }
  }

  /** A wake listed earlier is named before any event of one listed later. */
  lemma NamedEarlier(events: seq<Event>, a: nat, b: nat, h: nat) returns (g: nat)
    requires a < b < |Keys(Filter(events, Traced), WakeOf)| && h < |events| && Traced(events[h])
    requires WakeOf(events[h]) == Keys(Filter(events, Traced), WakeOf)[b]
    ensures g < h && events[g].wakeId == Some(Keys(Filter(events, Traced), WakeOf)[a])
  {
    var items := Filter(events, Traced);
    var at := PositionsExist(events, Traced);
    FilterAt(events, Traced, at);
    var m :| 0 <= m < |at| && at[m] == h;
    var k := KeysByFirst(items, WakeOf, a, b, m);
    g := at[k];
    assert items[k] == events[g];
  }

  /** The wake listed at `a`, first named at `i` and last updated by the newest event of all. */
  ghost predicate Leads(events: seq<Event>, a: nat, i: nat, k: nat) {
    var keys := Keys(Filter(events, Traced), WakeOf);
    && a < |keys| && NewestOfWakes(events, k) && UpdatedAt(events, keys[a]) == Some(events[k].createdAt)
    && FirstNames(events, i, keys[a])
    && forall b :: 0 <= b < a ==> !UpdatedNoEarlier(events, keys[b], keys[a])
  }

  lemma ListedAt(events: seq<Event>, h: nat) returns (b: nat)
    requires h < |events| && NamesWake(events[h])
    ensures b < |Keys(Filter(events, Traced), WakeOf)| && Keys(Filter(events, Traced), WakeOf)[b] == WakeOf(events[h])
    ensures Traced(events[h])
  {
    TracedNamesWake(events[h]);
    assert events[h] in Filter(events, Traced);
    var key := WakeOf(events[h]);
    assert key in Keys(Filter(events, Traced), WakeOf);
    b :| 0 <= b < |Keys(Filter(events, Traced), WakeOf)| && Keys(Filter(events, Traced), WakeOf)[b] == key;
  }

  /** A wake with a newest event is updated no earlier than any other. */
  lemma NewestIsNoOlder(events: seq<Event>, rival: string, wake: string, j: nat, k: nat)
    requires NewestOfWakes(events, j) && events[j].wakeId == Some(rival)
    requires NewestOfWakes(events, k) && UpdatedAt(events, wake) == Some(events[k].createdAt)
    ensures UpdatedNoEarlier(events, rival, wake)
  {
    assert events[j] in events;
    assert UpdatedAt(events, rival).value >= events[j].createdAt >= events[k].createdAt;
  }

  /** Of the wakes with a newest event, none is named before the one that leads. */
  lemma RivalNamedLater(events: seq<Event>, a: nat, i: nat, k: nat, j: nat, h: nat)
    requires Leads(events, a, i, k) && NewestOfWakes(events, j) && h < |events| && events[h].wakeId == events[j].wakeId
    ensures i <= h
  {
    var b := ListedAt(events, h);
    var keys := Keys(Filter(events, Traced), WakeOf);
    NewestIsNoOlder(events, keys[b], keys[a], j, k);
    assert b >= a;
    if b > a {
      var g := NamedEarlier(events, a, b, h);
    }
  }

  lemma TraceLeads(events: seq<Event>) returns (a: nat, i: nat, k: nat)
    requires SummarizeSessionTraces(events) != []
    ensures Leads(events, a, i, k) && Keys(Filter(events, Traced), WakeOf)[a] == SummarizeSessionTraces(events)[0]
    ensures events[k].wakeId == Some(SummarizeSessionTraces(events)[0])
  {
    var items := Filter(events, Traced);
    var keys := Keys(items, WakeOf);
    assert TotalPreorder(NoOlder(events));
    SortPermutes(keys, NoOlder(events));
    a := SortFirst(keys, NoOlder(events));
    forall b | 0 <= b < a ensures !UpdatedNoEarlier(events, keys[b], keys[a]) {
      assert !NoOlder(events)(keys[b], keys[a]);
    }
    var h := KeyIsUsed(items, WakeOf, keys[a]);
    assert items[h] in items;
    TraceIsLatest(events);
    k := TraceIsNewest(events, keys[a]);
    i := FirstNamed(events, keys[a], k);
  }

  lemma RivalsNamedLater(events: seq<Event>, a: nat, i: nat, k: nat)
    requires Leads(events, a, i, k)
    ensures NamedBeforeRivals(events, i)
  {
    forall j: nat, h: nat | NewestOfWakes(events, j) && h < |events| && events[h].wakeId == events[j].wakeId ensures i <= h {
      RivalNamedLater(events, a, i, k, j, h);
    }
  }

  lemma TraceWakeFound(events: seq<Event>)
    requires SummarizeSessionTraces(events) != []
    ensures IsTraceWake(events, SummarizeSessionTraces(events)[0])
  {
    var a, i, k := TraceLeads(events);
    RivalsNamedLater(events, a, i, k);
  }

  lemma TraceWakeIsUnique(events: seq<Event>, v: string, w: string)
    requires IsTraceWake(events, v) && IsTraceWake(events, w)
    ensures v == w
  {
    var i: nat, k: nat :| FirstNames(events, i, v) && NewestOfWakes(events, k) && events[k].wakeId == Some(v) && NamedBeforeRivals(events, i);
    var i': nat, k': nat :| FirstNames(events, i', w) && NewestOfWakes(events, k') && events[k'].wakeId == Some(w)
                  && NamedBeforeRivals(events, i');
    assert i <= i' && i' <= i;
  }

  lemma NoTraceNamesNone(events: seq<Event>)
    ensures SummarizeSessionTraces(events) == [] <==> forall e :: e in events ==> !NamesWake(e)
  {
    var keys := Keys(Filter(events, Traced), WakeOf);
    SortPermutes(keys, NoOlder(events));
    forall e | e in events && NamesWake(e) ensures WakeOf(e) in keys {
      TracedNamesWake(e);
      assert e in Filter(events, Traced);
    }
    if keys != [] {
      var h := KeyIsUsed(Filter(events, Traced), WakeOf, keys[0]);
      var e := Filter(events, Traced)[h];
      TracedNamesWake(e);
      assert e in Filter(events, Traced) && e in events;
    }
  }

  lemma LatestWakeMeans(snapshot: Snapshot, memory: Memory, wake: Option<string>)
    ensures IsLatestWake(snapshot, memory, wake) <==> wake == LatestWakeId(snapshot, memory)
  {
    var events := snapshot.events;
    var traces := SummarizeSessionTraces(events);
    NoTraceNamesNone(events);
    if traces != [] {
      TraceWakeFound(events);
      if wake.Some? && IsTraceWake(events, wake.value) {
        TraceWakeIsUnique(events, wake.value, traces[0]);
      }
    }
  }

  // ----- when promotion is allowed

  predicate EndsWake(e: Event, wake: string) {
    e.wakeId == Some(wake) && e.kind.SpanCompleted? && e.kind.spanKind == WakeSpan
  }

  predicate IdlesIn(e: Event, wake: string) {
    e.wakeId == Some(wake) && e.kind.StatusIdle?
  }

  predicate FailsToolIn(e: Event, wake: string) {
    e.wakeId == Some(wake) && e.kind.SpanCompleted? && e.kind.spanKind == ToolSpan && e.kind.result == Error
  }

  /** `events[j]` is earlier than `events[i]`, or as early and no further on in the list. */
  predicate NotAfter(events: seq<Event>, j: nat, i: nat)
    requires i < |events| && j < |events|
  {
    events[j].createdAt < events[i].createdAt || (events[j].createdAt == events[i].createdAt && j <= i)
  }

  ghost predicate LatestEnd(events: seq<Event>, wake: string, i: nat) {
    && i < |events| && EndsWake(events[i], wake)
    && forall j :: 0 <= j < |events| && EndsWake(events[j], wake) ==> NotAfter(events, j, i)
  }

  ghost predicate LatestIdle(events: seq<Event>, wake: string, i: nat) {
    && i < |events| && IdlesIn(events[i], wake)
    && forall j :: 0 <= j < |events| && IdlesIn(events[j], wake) ==> NotAfter(events, j, i)
  }

  /** The latest completion of the wake's own span succeeded and the latest idle is a plain one; no tool failed. */
  ghost predicate WakeEndedWell(events: seq<Event>, wake: string) {
    && (exists i: nat :: LatestEnd(events, wake, i) && events[i].kind.result == Success)
    && (exists i: nat :: LatestIdle(events, wake, i) && events[i].kind.reason == Idle)
    && forall e :: e in events ==> !FailsToolIn(e, wake)
  }

  ghost predicate CriteriaMet(outcome: OutcomeDefinition, searchable: string, matches: Matcher) {
    && (exists c :: c in outcome.successCriteria && HasText(c))
    && forall c :: c in outcome.successCriteria && HasText(c) ==> matches(searchable, c)
  }

  /** Nothing of the session waits for an answer, a tool or a later wake. */
  predicate NothingAwaited(snapshot: Snapshot, memory: Memory) {
    && !snapshot.pendingToolConfirmation && !snapshot.pendingCustomTool && snapshot.stopReason != RequiresAction
    && (memory.checkpoint.Some? ==> memory.checkpoint.value.queuedWakes == 0 && memory.checkpoint.value.nextWakeAt.None?)
  }

  predicate Hinders(shell: Option<LiveShell>) {
    shell.Some? && shell.value.active && shell.value.busy
  }

  /** Everything that has to hold, of the active outcome, the text searched and the latest wake. */
  ghost predicate SafeWith(
      snapshot: Snapshot, memory: Memory, matches: Matcher, shell: Option<LiveShell>,
      outcome: OutcomeDefinition, searchable: string, wake: string)
  {
    && IsActiveOutcome(snapshot, memory, Some(outcome)) && IsSearchable(snapshot, memory, searchable)
    && IsLatestWake(snapshot, memory, Some(wake)) && wake != ""
    && NothingAwaited(snapshot, memory) && snapshot.stopReason == Idle
    && CriteriaMet(outcome, searchable, matches)
    && WakeEndedWell(snapshot.events, wake)
    && !Hinders(shell)
  }

  /** Everything that has to hold, none of it stated through the grade, the evaluation or their searches. */
  ghost predicate SafeToPromote(snapshot: Snapshot, memory: Memory, matches: Matcher, shell: Option<LiveShell>) {
    exists outcome, searchable, wake :: SafeWith(snapshot, memory, matches, shell, outcome, searchable, wake)
  }

  lemma {:induction false} AllPass<T(!new)>(s: seq<T>, p: T -> bool)
    ensures |Filter(s, p)| == |s| <==> forall x :: x in s ==> p(x)
  {
    if s != [] {
      AllPass(s[1..], p);
      assert s == [s[0]] + s[1..];
    }
  }

  lemma AllMatchMeans(outcome: OutcomeDefinition, searchable: string, matches: Matcher)
    ensures
      var criteria := NonBlank(outcome.successCriteria);
      |criteria| > 0 && |Matching(criteria, searchable, matches)| == |criteria| <==> CriteriaMet(outcome, searchable, matches)
  {
    var criteria := NonBlank(outcome.successCriteria);
    AllPass(criteria, (criterion: string) => matches(searchable, criterion));
    forall c ensures NotBlank(c) <==> HasText(c) {
      TrimLeavesText(c);
    }
    if criteria != [] {
      assert criteria[0] in criteria;
    }
  }

  /** The status of a grade, by what the session records say. */
  lemma GradeMeans(
      snapshot: Snapshot, memory: Memory, matches: Matcher, outcome: Option<OutcomeDefinition>, searchable: string)
    requires IsActiveOutcome(snapshot, memory, outcome) && IsSearchable(snapshot, memory, searchable)
    ensures
      var awaited := snapshot.pendingToolConfirmation || snapshot.pendingCustomTool || snapshot.stopReason == RequiresAction;
      GradeSessionOutcome(snapshot, memory, matches).status ==
        if outcome.None? then NoOutcome
        else if awaited then GradedBlocked
        else if !NothingAwaited(snapshot, memory) then Sleeping
        else if snapshot.stopReason == Idle && CriteriaMet(outcome.value, searchable, matches) then DoneCandidate
        else InProgress
  {
    ActiveOutcomeMeans(snapshot, memory, outcome);
    SearchableMeans(snapshot, memory, searchable);
    if outcome.Some? {
      AllMatchMeans(outcome.value, searchable, matches);
    }
  }

  lemma DoneCandidateMeans(
      snapshot: Snapshot, memory: Memory, matches: Matcher, outcome: Option<OutcomeDefinition>, searchable: string)
    requires IsActiveOutcome(snapshot, memory, outcome) && IsSearchable(snapshot, memory, searchable)
    ensures GradeSessionOutcome(snapshot, memory, matches).status == DoneCandidate <==>
      && outcome.Some? && NothingAwaited(snapshot, memory) && snapshot.stopReason == Idle
      && CriteriaMet(outcome.value, searchable, matches)
  {
    GradeMeans(snapshot, memory, matches, outcome, searchable);
  }

  /** The last element of a kind, as the searches see it, is the latest such event of the wake. */
  lemma LatestSuch(events: seq<Event>, wake: string, p: Event -> bool, i: nat)
    ensures IsLatest(events, OfWakeAnd(wake, p), i) <==>
      && i < |events| && events[i].wakeId == Some(wake) && p(events[i])
      && forall j :: 0 <= j < |events| && events[j].wakeId == Some(wake) && p(events[j]) ==> NotAfter(events, j, i)
  {
    forall e ensures OfWakeAnd(wake, p)(e) <==> e.wakeId == Some(wake) && p(e) {
      OfWakeAndMeans(wake, p, e);
    }
  }

  lemma EndMeans(events: seq<Event>, wake: string)
    ensures LatestHas(events, OfWakeAnd(wake, IsWakeCompletion), Succeeded) <==>
      exists i: nat :: LatestEnd(events, wake, i) && events[i].kind.result == Success
  {
    forall i: nat ensures IsLatest(events, OfWakeAnd(wake, IsWakeCompletion), i) <==> LatestEnd(events, wake, i) {
      LatestSuch(events, wake, IsWakeCompletion, i);
    }
  }

  lemma IdleMeans(events: seq<Event>, wake: string)
    ensures LatestHas(events, OfWakeAnd(wake, IsIdle), PlainlyIdle) <==>
      exists i: nat :: LatestIdle(events, wake, i) && events[i].kind.reason == Idle
  {
    forall i: nat ensures IsLatest(events, OfWakeAnd(wake, IsIdle), i) <==> LatestIdle(events, wake, i) {
      LatestSuch(events, wake, IsIdle, i);
    }
  }

  lemma ToolErrorMeans(events: seq<Event>, wake: string)
    ensures FindLast(WakeEventsOf(events, wake), IsToolError).None? <==> forall e :: e in events ==> !FailsToolIn(e, wake)
  {
    FoundIsLatest(events, wake, IsToolError);
    LatestHasMeans(events, OfWakeAnd(wake, IsToolError), IsToolError);
    forall e ensures OfWakeAnd(wake, IsToolError)(e) <==> FailsToolIn(e, wake) {
      OfWakeAndMeans(wake, IsToolError, e);
    }
  }

  lemma EndedWellMeans(events: seq<Event>, wake: string)
    ensures
      var wakeEvents := WakeEventsOf(events, wake);
      var completion, idle := FindLast(wakeEvents, IsWakeCompletion), FindLast(wakeEvents, IsIdle);
      WakeEndedWell(events, wake) <==>
        && FindLast(wakeEvents, IsToolError).None?
        && completion.Some? && Succeeded(completion.value) && idle.Some? && PlainlyIdle(idle.value)
  {
    FoundIsLatest(events, wake, IsWakeCompletion);
    LatestHasMeans(events, OfWakeAnd(wake, IsWakeCompletion), Succeeded);
    EndMeans(events, wake);
    FoundIsLatest(events, wake, IsIdle);
    LatestHasMeans(events, OfWakeAnd(wake, IsIdle), PlainlyIdle);
    IdleMeans(events, wake);
    ToolErrorMeans(events, wake);
  }

  /** A done candidate fails on a failed tool of its latest wake, passes when that wake ended well, and is uncertain otherwise. */
  lemma PassMeansWakeEndedWell(outcome: OutcomeDefinition, snapshot: Snapshot, memory: Memory, wake: Option<string>)
    requires IsLatestWake(snapshot, memory, wake)
    ensures EvaluateDoneCandidate(outcome, snapshot, memory).status ==
      if wake.None? || wake.value == "" then Uncertain
      else if exists e :: e in snapshot.events && FailsToolIn(e, wake.value) then Fail
      else if WakeEndedWell(snapshot.events, wake.value) then Pass
      else Uncertain
  {
    LatestWakeMeans(snapshot, memory, wake);
    if Truthy(wake) {
      EndedWellMeans(snapshot.events, wake.value);
      ToolErrorMeans(snapshot.events, wake.value);
    }
  }

  function StatusFor(grade: GradeStatus, done: Status): Status {
    match grade
    case NoOutcome => MissingOutcome
    case GradedBlocked => Blocked
    case Sleeping => NotReady
    case InProgress => NotReady
    case DoneCandidate => done
  }

  /** The shape of an evaluation: what passes, and that its trend is the trend of its own posture. */
  lemma EvaluationShape(snapshot: Snapshot, memory: Memory, matches: Matcher)
    ensures
      var outcome := DeriveSessionActiveOutcome(snapshot, memory);
      var evaluation := EvaluateSessionOutcome(snapshot, memory, matches);
      && (evaluation.promotionReady <==> evaluation.status.Pass?)
      && (evaluation.status.MissingOutcome? <==> outcome.None?)
      && evaluation.status == StatusFor(
           GradeSessionOutcome(snapshot, memory, matches).status,
           if outcome.Some? then EvaluateDoneCandidate(outcome.value, snapshot, memory).status else Uncertain)
      && (outcome.Some? ==>
            && evaluation.trend == ResolveTrend(Previous(outcome.value, memory), evaluation.status, evaluation.promotionReady)
            && (evaluation.status.Pass? <==>
                  && GradeSessionOutcome(snapshot, memory, matches).status.DoneCandidate?
                  && EvaluateDoneCandidate(outcome.value, snapshot, memory).status.Pass?))
  {
  }

  /** The status of an evaluation before the guard, by what the session's records say. */
  function StatusOf(
      snapshot: Snapshot, memory: Memory, met: bool, outcome: Option<OutcomeDefinition>, wake: Option<string>,
      toolFailed: bool, endedWell: bool): Status
  {
    if outcome.None? then MissingOutcome
    else if snapshot.pendingToolConfirmation || snapshot.pendingCustomTool || snapshot.stopReason == RequiresAction then Blocked
    else if !NothingAwaited(snapshot, memory) || snapshot.stopReason != Idle || !met then NotReady
    else if wake.None? || wake.value == "" then Uncertain
    else if toolFailed then Fail
    else if endedWell then Pass
    else Uncertain
  }

  /** Each status has its own condition, and only a pass is ready for promotion. */
  lemma EvaluationMeans(
      snapshot: Snapshot, memory: Memory, matches: Matcher,
      outcome: Option<OutcomeDefinition>, searchable: string, wake: Option<string>)
    requires IsActiveOutcome(snapshot, memory, outcome) && IsSearchable(snapshot, memory, searchable)
    requires IsLatestWake(snapshot, memory, wake)
    ensures
      var evaluation := EvaluateSessionOutcome(snapshot, memory, matches);
      && evaluation.status == StatusOf(
           snapshot, memory, outcome.Some? && CriteriaMet(outcome.value, searchable, matches), outcome, wake,
           wake.Some? && exists e :: e in snapshot.events && FailsToolIn(e, wake.value),
           wake.Some? && WakeEndedWell(snapshot.events, wake.value))
      && (evaluation.promotionReady <==> evaluation.status == Pass)
  {
    EvaluationShape(snapshot, memory, matches);
    ActiveOutcomeMeans(snapshot, memory, outcome);
    GradeMeans(snapshot, memory, matches, outcome, searchable);
    var met := outcome.Some? && CriteriaMet(outcome.value, searchable, matches);
    var failed := wake.Some? && exists e :: e in snapshot.events && FailsToolIn(e, wake.value);
    var ended := wake.Some? && WakeEndedWell(snapshot.events, wake.value);
    if outcome.Some? {
      PassMeansWakeEndedWell(outcome.value, snapshot, memory, wake);
      StatusFits(snapshot, memory, met, outcome, wake, failed, ended, EvaluateDoneCandidate(outcome.value, snapshot, memory).status);
    }
  }

  lemma StatusFits(
      snapshot: Snapshot, memory: Memory, met: bool, outcome: Option<OutcomeDefinition>, wake: Option<string>,
      toolFailed: bool, endedWell: bool, done: Status)
    requires outcome.Some?
    requires done == if wake.None? || wake.value == "" then Uncertain else if toolFailed then Fail else if endedWell then Pass else Uncertain
    ensures StatusOf(snapshot, memory, met, outcome, wake, toolFailed, endedWell) ==
      StatusFor(
        if snapshot.pendingToolConfirmation || snapshot.pendingCustomTool || snapshot.stopReason == RequiresAction then GradedBlocked
        else if !NothingAwaited(snapshot, memory) then Sleeping
        else if snapshot.stopReason == Idle && met then DoneCandidate
        else InProgress, done)
  {
  }

  /** A busy shell lowers what is not missing, blocked or failed to "not ready", and changes nothing else. */
  lemma GuardMeans(evaluation: Evaluated, shell: Option<LiveShell>)
    ensures
      var guarded := ApplyLiveShellOutcomeGuard(evaluation, shell);
      if Hinders(shell) && evaluation.status !in {MissingOutcome, Blocked, Fail}
      then guarded == Evaluated(NotReady, false, evaluation.trend) else guarded == evaluation
  {
  }

  lemma SafeMeans(
      snapshot: Snapshot, memory: Memory, matches: Matcher, shell: Option<LiveShell>,
      outcome: Option<OutcomeDefinition>, searchable: string, wake: Option<string>)
    requires IsActiveOutcome(snapshot, memory, outcome) && IsSearchable(snapshot, memory, searchable)
    requires IsLatestWake(snapshot, memory, wake)
    ensures SafeToPromote(snapshot, memory, matches, shell) <==>
      outcome.Some? && wake.Some? && SafeWith(snapshot, memory, matches, shell, outcome.value, searchable, wake.value)
  {
    ActiveOutcomeMeans(snapshot, memory, outcome);
    SearchableMeans(snapshot, memory, searchable);
    LatestWakeMeans(snapshot, memory, wake);
    if SafeToPromote(snapshot, memory, matches, shell) {
      var o, text, w :| SafeWith(snapshot, memory, matches, shell, o, text, w);
      ActiveOutcomeMeans(snapshot, memory, Some(o));
      SearchableMeans(snapshot, memory, text);
      LatestWakeMeans(snapshot, memory, Some(w));
    }
  }

  /** Promotion is allowed exactly when it is safe, across the grade, the evaluation and the guard. */
  lemma PromotionReadyIffSafe(snapshot: Snapshot, memory: Memory, matches: Matcher, shell: Option<LiveShell>)
    ensures
      var verdict := ApplyLiveShellOutcomeGuard(EvaluateSessionOutcome(snapshot, memory, matches), shell);
      && (verdict.promotionReady <==> SafeToPromote(snapshot, memory, matches, shell))
      && (verdict.promotionReady <==> verdict.status == Pass)
  {
    var outcome, searchable := DeriveSessionActiveOutcome(snapshot, memory), Searchable(snapshot, memory);
    var wake := LatestWakeId(snapshot, memory);
    ActiveOutcomeMeans(snapshot, memory, outcome);
    SearchableMeans(snapshot, memory, searchable);
    LatestWakeMeans(snapshot, memory, wake);
    PassIsSafe(snapshot, memory, matches, shell, outcome, searchable, wake);
    SafeMeans(snapshot, memory, matches, shell, outcome, searchable, wake);
    GuardMeans(EvaluateSessionOutcome(snapshot, memory, matches), shell);
  }

  lemma PassIsSafe(
      snapshot: Snapshot, memory: Memory, matches: Matcher, shell: Option<LiveShell>,
      outcome: Option<OutcomeDefinition>, searchable: string, wake: Option<string>)
    requires IsActiveOutcome(snapshot, memory, outcome) && IsSearchable(snapshot, memory, searchable)
    requires IsLatestWake(snapshot, memory, wake)
    ensures
      var evaluation := EvaluateSessionOutcome(snapshot, memory, matches);
      && (evaluation.promotionReady <==> evaluation.status == Pass)
      && (evaluation.status == Pass && !Hinders(shell) <==>
            outcome.Some? && wake.Some? && SafeWith(snapshot, memory, matches, shell, outcome.value, searchable, wake.value))
  {
    EvaluationMeans(snapshot, memory, matches, outcome, searchable, wake);
    if wake.Some? && WakeEndedWell(snapshot.events, wake.value) {
      assert forall e :: e in snapshot.events ==> !FailsToolIn(e, wake.value);
    }
  }

  // ----- the guard and the trend

  /** The statuses from worst to best: missing, fail, blocked, not ready, uncertain, pass. */
  predicate Worse(s: Status, t: Status) {
    match t
    case MissingOutcome => false
    case Fail => s == MissingOutcome
    case Blocked => s == MissingOutcome || s == Fail
    case NotReady => s == MissingOutcome || s == Fail || s == Blocked
    case Uncertain => s != Pass && s != Uncertain
    case Pass => s != Pass
  }

  /** Postures rank by status, and being ready for promotion is worth one step up. */
  lemma PostureOrder(s: Status, t: Status)
    ensures forall ready :: Posture(s, ready) < Posture(t, ready) <==> Worse(s, t)
    ensures Worse(s, t) ==> Posture(s, true) <= Posture(t, false) < Posture(t, true)
    ensures s == t ==> Posture(s, false) < Posture(t, true)
  {
  }

  /** `i` is the latest evaluation of the outcome on record. */
  ghost predicate LatestOfOutcome(history: seq<OutcomeHistory.Evaluation>, outcome: OutcomeDefinition, i: nat) {
    && i < |history| && history[i].fingerprint == Some(outcome)
    && forall j :: i < j < |history| ==> history[j].fingerprint != Some(outcome)
  }

  lemma {:induction false} PreviousMeans(history: seq<OutcomeHistory.Evaluation>, outcome: OutcomeDefinition, i: nat)
    ensures LatestOfOutcome(history, outcome, i) ==>
      PreviousPosture(history, outcome) == Some(Posture(history[i].verdict.status, history[i].verdict.promotionReady))
    ensures PreviousPosture(history, outcome).None? <==>
      forall j :: 0 <= j < |history| ==> history[j].fingerprint != Some(outcome)
  {
    if history != [] && history[|history| - 1].fingerprint != Some(outcome) {
      PreviousMeans(history[..|history| - 1], outcome, i);
    }
  }

  /** The trend compares the evaluation with the latest one on record of the same outcome. */
  lemma TrendMeans(snapshot: Snapshot, memory: Memory, matches: Matcher, outcome: OutcomeDefinition, i: nat)
    requires IsActiveOutcome(snapshot, memory, Some(outcome)) && memory.checkpoint.Some?
    requires LatestOfOutcome(memory.checkpoint.value.history, outcome, i)
    ensures
      var evaluation, earlier := EvaluateSessionOutcome(snapshot, memory, matches), memory.checkpoint.value.history[i].verdict;
      var now, before := Posture(evaluation.status, evaluation.promotionReady), Posture(earlier.status, earlier.promotionReady);
      && (evaluation.trend == Improving <==> now > before)
      && (evaluation.trend == Regressing <==> now < before)
      && (evaluation.trend == Stable <==> now == before)
  {
    ActiveOutcomeMeans(snapshot, memory, Some(outcome));
    EvaluationShape(snapshot, memory, matches);
    PreviousMeans(memory.checkpoint.value.history, outcome, i);
  }

  /**
   The guard lowers the status but keeps the trend computed before it. The two still agree
   exactly when the guard did not step in, or there is no earlier posture, or the earlier
   posture lies below "not ready" or above the posture that was lowered.
   */
  lemma GuardedTrendIsHonest(
      snapshot: Snapshot, memory: Memory, matches: Matcher, shell: Option<LiveShell>, outcome: OutcomeDefinition)
    requires IsActiveOutcome(snapshot, memory, Some(outcome))
    ensures
      var before := EvaluateSessionOutcome(snapshot, memory, matches);
      var verdict := ApplyLiveShellOutcomeGuard(before, shell);
      var previous := Previous(outcome, memory);
      verdict.trend == ResolveTrend(previous, verdict.status, verdict.promotionReady) <==> KeepsItsTrend(previous, before, shell)
  {
    ActiveOutcomeMeans(snapshot, memory, Some(outcome));
    EvaluationShape(snapshot, memory, matches);
    GuardedTrendOf(Previous(outcome, memory), EvaluateSessionOutcome(snapshot, memory, matches), shell);
  }

  predicate KeepsItsTrend(previous: Option<nat>, before: Evaluated, shell: Option<LiveShell>) {
    || !Hinders(shell) || !(before.status.Uncertain? || before.status.Pass?) || previous.None?
    || previous.value < EvaluationScore(NotReady) || previous.value > Posture(before.status, before.promotionReady)
  }

  lemma GuardedTrendOf(previous: Option<nat>, before: Evaluated, shell: Option<LiveShell>)
    requires before.trend == ResolveTrend(previous, before.status, before.promotionReady)
    requires before.promotionReady <==> before.status.Pass?
    ensures
      var verdict := ApplyLiveShellOutcomeGuard(before, shell);
      verdict.trend == ResolveTrend(previous, verdict.status, verdict.promotionReady) <==> KeepsItsTrend(previous, before, shell)
  {
  }

  lemma SafePasses(snapshot: Snapshot, memory: Memory, matches: Matcher, outcome: OutcomeDefinition)
    requires SafeToPromote(snapshot, memory, matches, None) && IsActiveOutcome(snapshot, memory, Some(outcome))
    ensures EvaluateSessionOutcome(snapshot, memory, matches)
         == Evaluated(Pass, true, ResolveTrend(Previous(outcome, memory), Pass, true))
  {
    PromotionReadyIffSafe(snapshot, memory, matches, None);
    UnguardedWithoutShell(EvaluateSessionOutcome(snapshot, memory, matches));
    ActiveOutcomeMeans(snapshot, memory, Some(outcome));
    EvaluationShape(snapshot, memory, matches);
  }

  lemma UnguardedWithoutShell(evaluation: Evaluated)
    ensures ApplyLiveShellOutcomeGuard(evaluation, None) == evaluation
  {
  }

  /** Lowering a pass that improved on "not ready" gives back "not ready", called an improvement. */
  lemma LoweredPass(before: Evaluated)
    requires before == Evaluated(Pass, true, ResolveTrend(Some(EvaluationScore(NotReady)), Pass, true))
    ensures ApplyLiveShellOutcomeGuard(before, Some(LiveShell(true, true))) == Evaluated(NotReady, false, Improving)
    ensures ResolveTrend(Some(EvaluationScore(NotReady)), NotReady, false) == Stable
  {
  }

  const GOAL := OutcomeDefinition("t", None, ["c"])

  /** A session whose latest wake passed after an evaluation that was not ready. */
  function PassingSnapshot(): Snapshot {
    Snapshot(
      [Event(1, Some("w"), SpanCompleted(WakeSpan, Success)), Event(2, Some("w"), StatusIdle(Idle))], Idle, false, false)
  }

  function PassingMemory(): Memory {
    var earlier := Evaluation(0, Some("v"), 0, Some("t"), Some(GOAL), InProgress, Verdict(NotReady, "", false));
    Memory(Some(GateCheckpoint(Some(GOAL), "", 0, None, Some("w"), [earlier])), "", "")
  }

  lemma PassingOutcome()
    ensures DeriveSessionActiveOutcome(PassingSnapshot(), PassingMemory()) == Some(GOAL)
  {
    var events := PassingSnapshot().events;
    NoneFound(events[0], events[1], IsOutcome);
    assert events == [events[0], events[1]];
  }

  lemma NoneFound(a: Event, b: Event, p: Event -> bool)
    requires !p(a) && !p(b)
    ensures FindLast([a, b], p).None?
  {
    var two, one := [a, b], [a];
    assert two[..|two| - 1] == one && one[..|one| - 1] == [];
    assert FindLast(one, p).None?;
  }

  lemma PassingHistory()
    ensures Previous(GOAL, PassingMemory()) == Some(EvaluationScore(NotReady))
  {
  }

  lemma PassingCriteria(searchable: string, matches: Matcher)
    requires matches(searchable, "c")
    ensures CriteriaMet(GOAL, searchable, matches)
  {
    assert GOAL.successCriteria[0] == "c" && !IsSpace("c"[0]);
  }

  lemma PassingWake()
    ensures WakeEndedWell(PassingSnapshot().events, "w") && IsLatestWake(PassingSnapshot(), PassingMemory(), Some("w"))
  {
    var events := PassingSnapshot().events;
    TwoEventsEndWell(events[0], events[1], "w");
    assert events == [events[0], events[1]];
  }

  /** A session that satisfies all that promotion asks for, whose earlier evaluation was not ready. */
  lemma PassingIsSafe()
    ensures SafeToPromote(PassingSnapshot(), PassingMemory(), (_, _) => true, None)
    ensures IsActiveOutcome(PassingSnapshot(), PassingMemory(), Some(GOAL))
  {
    var searchable := Searchable(PassingSnapshot(), PassingMemory());
    PassingOutcome();
    ActiveOutcomeMeans(PassingSnapshot(), PassingMemory(), Some(GOAL));
    SearchableMeans(PassingSnapshot(), PassingMemory(), searchable);
    PassingCriteria(searchable, (_, _) => true);
    PassingWake();
    SafeByParts(PassingSnapshot(), PassingMemory(), (_, _) => true, GOAL, searchable, "w");
  }

  lemma SafeByParts(
      snapshot: Snapshot, memory: Memory, matches: Matcher, outcome: OutcomeDefinition, searchable: string, wake: string)
    requires IsActiveOutcome(snapshot, memory, Some(outcome)) && IsSearchable(snapshot, memory, searchable)
    requires IsLatestWake(snapshot, memory, Some(wake)) && wake != "" && WakeEndedWell(snapshot.events, wake)
    requires NothingAwaited(snapshot, memory) && snapshot.stopReason == Idle && CriteriaMet(outcome, searchable, matches)
    ensures SafeToPromote(snapshot, memory, matches, None)
  {
    assert SafeWith(snapshot, memory, matches, None, outcome, searchable, wake);
  }

  /** From a snapshot: a busy shell takes the status back to what it was, and the trend says it improved. */
  lemma GuardedTrendCanMislead()
    ensures
      var verdict := ApplyLiveShellOutcomeGuard(
        EvaluateSessionOutcome(PassingSnapshot(), PassingMemory(), (_, _) => true), Some(LiveShell(true, true)));
      && verdict == Evaluated(NotReady, false, Improving)
      && ResolveTrend(Previous(GOAL, PassingMemory()), verdict.status, verdict.promotionReady) == Stable
  {
    PassingIsSafe();
    PassingHistory();
    SafePasses(PassingSnapshot(), PassingMemory(), (_, _) => true, GOAL);
    LoweredPass(EvaluateSessionOutcome(PassingSnapshot(), PassingMemory(), (_, _) => true));
  }

  lemma TwoEventsEndWell(a: Event, b: Event, wake: string)
    requires EndsWake(a, wake) && a.kind.result == Success && IdlesIn(b, wake) && b.kind.reason == Idle
    ensures WakeEndedWell([a, b], wake)
  {
    var events := [a, b];
    assert LatestEnd(events, wake, 0) && LatestIdle(events, wake, 1);
    assert events[0].kind.result == Success && events[1].kind.reason == Idle;
  }
}
