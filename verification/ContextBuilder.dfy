/**
 The selection of a session's history under a token budget: the last two conversation records
 first, then everything else from the newest to the oldest.
 */
module ContextBuilder {
  import opened Strings
  import opened Sorting

  datatype HistoryRecord = HistoryRecord(timestamp: int, role: string, kind: string, message: string)

  datatype BuiltContext = BuiltContext(
    tokenBudget: int, estimatedTokens: nat,
    totalHistoryCount: nat, totalConversationCount: nat, totalRuntimeNoteCount: nat,
    droppedConversationCount: nat, droppedRuntimeNoteCount: nat,
    protectedConversationContinuityCount: nat,
    selectedHistory: seq<HistoryRecord>, conversationHistory: seq<HistoryRecord>, runtimeNotes: seq<HistoryRecord>,
    transcript: string)

  const MIN_CONVERSATION_CONTINUITY_RECORDS := 2

  function EstimateTokens(text: string): (tokens: nat)
    ensures tokens >= 1 && 4 * tokens >= |text|
    ensures tokens > 1 ==> 4 * (tokens - 1) < |text|
  {
    if text == "" then 1 else (|text| + 3) / 4
  }

  function RenderRecord(r: HistoryRecord): string {
    r.role + ":" + r.kind + ": " + r.message
  }

  /** A quarter, rounded up, of the record's three texts and the three characters between them. */
  function Cost(r: HistoryRecord): (tokens: nat)
    ensures var length := |r.role| + |r.kind| + |r.message| + 3; 4 * (tokens - 1) < length <= 4 * tokens
  {
    EstimateTokens(RenderRecord(r))
  }

  predicate IsRuntimeNote(r: HistoryRecord) {
    r.kind == "runtime_note"
  }

  predicate IsConversation(r: HistoryRecord) {
    !IsRuntimeNote(r)
  }

  predicate Older(a: HistoryRecord, b: HistoryRecord) {
    a.timestamp <= b.timestamp
  }

  /** What the budget leaves after the prompt and the message, and at least one. */
  function Available(tokenBudget: int, systemPrompt: string, incomingMessage: string): (tokens: nat)
    ensures tokens >= 1
    ensures tokens > 1 ==> tokens + EstimateTokens(systemPrompt) + EstimateTokens(incomingMessage) == tokenBudget
    ensures tokens + EstimateTokens(systemPrompt) + EstimateTokens(incomingMessage) >= tokenBudget
  {
    var left := tokenBudget - EstimateTokens(systemPrompt) - EstimateTokens(incomingMessage);
    if left < 1 then 1 else left
  }

  function Tokens(records: seq<HistoryRecord>): nat {
    if records == [] then 0 else Tokens(records[..|records| - 1]) + Cost(records[|records| - 1])
  }

  function Costs(records: seq<HistoryRecord>): (costs: seq<nat>)
    ensures |costs| == |records|
    ensures forall i :: 0 <= i < |records| ==> costs[i] == Cost(records[i])
  {
    if records == [] then [] else Costs(records[..|records| - 1]) + [Cost(records[|records| - 1])]
  }

  // ----- weights of index sets

  function Weight(costs: seq<nat>, chosen: set<nat>): nat {
    if costs == [] then 0
    else
      var last := |costs| - 1;
      Weight(costs[..last], chosen) + if last in chosen then costs[last] else 0
  }

  lemma {:induction false} WeightSame(costs: seq<nat>, a: set<nat>, b: set<nat>)
    requires forall i :: 0 <= i < |costs| ==> (i in a <==> i in b)
    ensures Weight(costs, a) == Weight(costs, b)
  {
    if costs != [] {
      WeightSame(costs[..|costs| - 1], a, b);
    }
  }

  lemma {:induction false} WeightAdd(costs: seq<nat>, chosen: set<nat>, i: nat)
    requires i < |costs| && i !in chosen
    ensures Weight(costs, chosen + {i}) == Weight(costs, chosen) + costs[i]
  {
    var last := |costs| - 1;
    if i < last {
      WeightAdd(costs[..last], chosen, i);
    } else {
      WeightSame(costs[..last], chosen + {i}, chosen);
    }
  }

  lemma {:induction false} WeightGrows(costs: seq<nat>, a: set<nat>, b: set<nat>)
    requires a <= b
    ensures Weight(costs, a) <= Weight(costs, b)
  {
    if costs != [] {
      WeightGrows(costs[..|costs| - 1], a, b);
    }
  }

  lemma {:induction false} WeightOfNone(costs: seq<nat>)
    ensures Weight(costs, {}) == 0
  {
    if costs != [] {
      WeightOfNone(costs[..|costs| - 1]);
    }
  }

  // ----- the greedy choice

  function Above(chosen: set<nat>, i: nat): set<nat> {
    set j | j in chosen && j > i
  }

  /** Index `i` is chosen exactly when it fits on top of the protected ones and the newer chosen ones. */
  ghost predicate GreedyAt(costs: seq<nat>, first: set<nat>, chosen: set<nat>, available: nat, i: nat)
    requires i < |costs|
  {
    i in chosen <==> i in first || Weight(costs, first + Above(chosen, i)) + costs[i] <= available
  }

  ghost predicate Greedy(costs: seq<nat>, first: set<nat>, chosen: set<nat>, available: nat) {
    && first <= chosen && (forall i :: i in chosen ==> i < |costs|)
    && Weight(costs, chosen) <= available
    && forall i :: 0 <= i < |costs| ==> GreedyAt(costs, first, chosen, available, i)
  }

  /** Nothing that was left out would still fit. */
  lemma GreedyIsMaximal(costs: seq<nat>, first: set<nat>, chosen: set<nat>, available: nat, i: nat)
    requires Greedy(costs, first, chosen, available) && i < |costs| && i !in chosen
    ensures Weight(costs, chosen) + costs[i] > available
  {
    assert GreedyAt(costs, first, chosen, available, i);
    WeightGrows(costs, first + Above(chosen, i), chosen);
  }

  /** The choice is determined by the costs, the protected indexes and the budget. */
  lemma {:induction false} GreedyIsUnique(costs: seq<nat>, first: set<nat>, a: set<nat>, b: set<nat>, available: nat, from: nat)
    requires Greedy(costs, first, a, available) && Greedy(costs, first, b, available) && from <= |costs|
    ensures forall i :: from <= i < |costs| ==> (i in a <==> i in b)
    decreases |costs| - from
  {
    if from < |costs| {
      GreedyIsUnique(costs, first, a, b, available, from + 1);
      assert GreedyAt(costs, first, a, available, from) && GreedyAt(costs, first, b, available, from);
      assert Above(a, from) == Above(b, from);
    }
  }

  // ----- the two passes

  /** Protected indexes in the order they are tried: each is kept when it fits on the ones kept before it. */
  function KeepThatFit(costs: seq<nat>, order: seq<nat>, available: nat): (kept: set<nat>)
    ensures forall i :: i in kept ==> i in order
  {
    if order == [] then {}
    else
      var before := KeepThatFit(costs, order[..|order| - 1], available);
      var i := order[|order| - 1];
      if Weight(costs, before + {i}) <= available then before + {i} else before
  }

  method ProtectContinuity(costs: seq<nat>, continuity: seq<nat>, available: nat) returns (selected: set<nat>, used: nat)
    requires forall i :: i in continuity ==> i < |costs|
    requires forall i, j :: 0 <= i < j < |continuity| ==> continuity[i] < continuity[j]
    ensures selected == KeepThatFit(costs, continuity, available)
    ensures used == Weight(costs, selected) <= available
  {
    selected, used := {}, 0;
    WeightOfNone(costs);
    for k := 0 to |continuity|
      invariant selected == KeepThatFit(costs, continuity[..k], available)
      invariant used == Weight(costs, selected) <= available
    {
      var index := continuity[k];
      assert index in continuity;
      assert continuity[..k + 1][..k] == continuity[..k];
      assert index !in selected;
      WeightAdd(costs, selected, index);
      var cost := costs[index];
      if used + cost > available {
        continue;
      }
      selected := selected + {index};
      used := used + cost;
    }
    assert continuity[..|continuity|] == continuity;
  }

  /** The second pass, down to `from`: what it added lies there and was chosen greedily. */
  ghost predicate Filled(costs: seq<nat>, first: set<nat>, chosen: set<nat>, available: nat, used: nat, from: nat) {
    && first <= chosen && (forall i :: i in chosen ==> i < |costs| && (i in first || i >= from))
    && used == Weight(costs, chosen) <= available
    && forall i :: from <= i < |costs| ==> GreedyAt(costs, first, chosen, available, i)
  }

  lemma FillOne(costs: seq<nat>, first: set<nat>, chosen: set<nat>, available: nat, used: nat, index: nat)
    requires index < |costs| && Filled(costs, first, chosen, available, used, index + 1)
    ensures index in chosen || used + costs[index] > available ==> Filled(costs, first, chosen, available, used, index)
    ensures index !in chosen && used + costs[index] <= available ==>
      Filled(costs, first, chosen + {index}, available, used + costs[index], index)
  {
    assert first + Above(chosen, index) == chosen;
    if index !in chosen {
      WeightAdd(costs, chosen, index);
      var more := chosen + {index};
      assert Above(more, index) == Above(chosen, index);
      forall i | index < i < |costs| ensures GreedyAt(costs, first, more, available, i) {
        assert GreedyAt(costs, first, chosen, available, i);
        assert Above(more, i) == Above(chosen, i);
      }
    }
  }

  method FillFromNewest(costs: seq<nat>, first: set<nat>, available: nat) returns (selected: set<nat>, used: nat)
    requires (forall i :: i in first ==> i < |costs|) && Weight(costs, first) <= available
    ensures Greedy(costs, first, selected, available) && used == Weight(costs, selected)
  {
    selected, used := first, Weight(costs, first);
    var index := |costs|;
    while index > 0
      invariant 0 <= index <= |costs|
      invariant Filled(costs, first, selected, available, used, index)
    {
      index := index - 1;
      FillOne(costs, first, selected, available, used, index);
      if index in selected {
        continue;
      }
      var cost := costs[index];
      if used + cost > available {
        continue;
      }
      selected := selected + {index};
      used := used + cost;
    }
  }

  // ----- records by index

  /** The records at the chosen indexes, in their order. */
  function Pick(records: seq<HistoryRecord>, chosen: set<nat>): (r: seq<HistoryRecord>)
    ensures forall x :: x in r ==> x in records
  {
    if records == [] then []
    else
      var last := |records| - 1;
      var before := Pick(records[..last], chosen);
      if last in chosen then before + [records[last]] else before
  }

  lemma {:induction false} PickWeighs(records: seq<HistoryRecord>, chosen: set<nat>)
    ensures Tokens(Pick(records, chosen)) == Weight(Costs(records), chosen)
  {
    if records != [] {
      var last := |records| - 1;
      PickWeighs(records[..last], chosen);
      assert Costs(records)[..last] == Costs(records[..last]);
      var before := Pick(records[..last], chosen);
      assert (before + [records[last]])[..|before|] == before;
    }
  }

  lemma {:induction false} PickKeepsOrder(records: seq<HistoryRecord>, chosen: set<nat>)
    requires Sorted(records, Older)
    ensures Sorted(Pick(records, chosen), Older)
  {
    if records != [] {
      var last := |records| - 1;
      PickKeepsOrder(records[..last], chosen);
      var before := Pick(records[..last], chosen);
      forall k | 0 <= k < |before| ensures Older(before[k], records[last]) {
        assert before[k] in records[..last];
      }
    }
  }

  /** The chosen indexes below `n`, in increasing order. */
  function Ascending(chosen: set<nat>, n: nat): (r: seq<nat>)
    ensures forall i :: i in r <==> i < n && i in chosen
    ensures forall i, j :: 0 <= i < j < |r| ==> r[i] < r[j]
  {
    if n == 0 then []
    else
      var before := Ascending(chosen, n - 1);
      assert forall k :: 0 <= k < |before| ==> before[k] in before;
      if n - 1 in chosen then before + [n - 1] else before
  }

  /** The selection lists the records of an increasing run of indexes, so equal timestamps keep their order too. */
  lemma {:induction false} PickIsAscending(records: seq<HistoryRecord>, chosen: set<nat>)
    ensures |Pick(records, chosen)| == |Ascending(chosen, |records|)|
    ensures forall k :: 0 <= k < |Pick(records, chosen)| ==>
      && Ascending(chosen, |records|)[k] in Ascending(chosen, |records|)
      && Pick(records, chosen)[k] == records[Ascending(chosen, |records|)[k]]
  {
    if records != [] {
      var last := |records| - 1;
      PickIsAscending(records[..last], chosen);
      var before := Ascending(chosen, last);
      forall k | 0 <= k < |before| ensures records[..last][before[k]] == records[before[k]] {
        assert before[k] in before;
      }
    }
  }

  /** Positions of the conversation records, oldest first. */
  function ConversationIndexes(records: seq<HistoryRecord>): (r: seq<nat>)
    ensures |r| <= |records|
    ensures forall i, j :: 0 <= i < j < |r| ==> r[i] < r[j]
    ensures forall i :: i in r <==> 0 <= i < |records| && records[i].kind != "runtime_note"
  {
    if records == [] then []
    else
      var last := |records| - 1;
      var before := ConversationIndexes(records[..last]);
      assert forall k :: 0 <= k < |before| ==> before[k] in before;
      if IsRuntimeNote(records[last]) then before else before + [last]
  }

  function Conversation(records: seq<HistoryRecord>): seq<HistoryRecord> {
    Filter(records, IsConversation)
  }

  function Notes(records: seq<HistoryRecord>): seq<HistoryRecord> {
    Filter(records, IsRuntimeNote)
  }

  lemma {:induction false} KindsPartition(records: seq<HistoryRecord>)
    ensures |Conversation(records)| + |Notes(records)| == |records|
  {
    if records != [] {
      KindsPartition(records[1..]);
    }
  }

  lemma KindsAppend(before: seq<HistoryRecord>, x: HistoryRecord)
    ensures |Conversation(before + [x])| == |Conversation(before)| + if IsRuntimeNote(x) then 0 else 1
    ensures |Notes(before + [x])| == |Notes(before)| + if IsRuntimeNote(x) then 1 else 0
  {
    FilterAppend(before, [x], IsConversation);
    FilterAppend(before, [x], IsRuntimeNote);
  }

  /** What is picked of each kind is at most what there is of it. */
  lemma {:induction false} PickedOfEachKind(records: seq<HistoryRecord>, chosen: set<nat>)
    ensures |Conversation(Pick(records, chosen))| <= |ConversationIndexes(records)|
    ensures |Notes(Pick(records, chosen))| <= |records| - |ConversationIndexes(records)|
  {
    if records != [] {
      var last := |records| - 1;
      PickedOfEachKind(records[..last], chosen);
      if last in chosen {
        KindsAppend(Pick(records[..last], chosen), records[last]);
      }
    }
  }

  function LastOf<T>(s: seq<T>, n: nat): (r: seq<T>)
    ensures |r| == if |s| < n then |s| else n
    ensures forall k :: 0 <= k < |r| ==> r[k] == s[|s| - |r| + k]
    ensures forall x :: x in r ==> x in s
  {
    if |s| <= n then s else s[|s| - n..]
  }

  function Rendered(records: seq<HistoryRecord>): (lines: seq<string>)
    ensures |lines| == |records|
    ensures forall i :: 0 <= i < |records| ==>
      lines[i] == records[i].role + ":" + records[i].kind + ": " + records[i].message
  {
    if records == [] then [] else [RenderRecord(records[0])] + Rendered(records[1..])
  }

  ghost predicate OldestFirst(records: seq<HistoryRecord>) {
    forall i, j :: 0 <= i < j < |records| ==> records[i].timestamp <= records[j].timestamp
  }

  /** The sorted history that the selection works on. */
  function History(events: seq<HistoryRecord>, supplemental: seq<HistoryRecord>): seq<HistoryRecord> {
    StableSort(events + supplemental, Older)
  }

  /** The last two conversation records. */
  function Continuity(history: seq<HistoryRecord>): (r: seq<nat>)
    ensures forall i :: i in r ==> 0 <= i < |history| && history[i].kind != "runtime_note"
    ensures forall i, j :: 0 <= i < j < |r| ==> r[i] < r[j]
  {
    LastOf(ConversationIndexes(history), MIN_CONVERSATION_CONTINUITY_RECORDS)
  }

  lemma LastOfIsLast(all: seq<nat>, n: nat, i: nat, k: nat)
    requires forall a, b :: 0 <= a < b < |all| ==> all[a] < all[b]
    requires i in all && i !in LastOf(all, n) && k in LastOf(all, n)
    ensures i < k
  {
    var last := LastOf(all, n);
    var skipped := |all| - |last|;
    var a :| 0 <= a < |all| && all[a] == i;
    var b :| 0 <= b < |last| && last[b] == k;
    assert all[skipped + b] == k;
    assert a < skipped by {
      assert forall c :: skipped <= c < |all| ==> all[c] == last[c - skipped] && last[c - skipped] in last;
    }
  }

  /** Two conversation records are protected, or as many as there are, and none behind them is left out. */
  lemma ContinuityIsLastTwo(history: seq<HistoryRecord>)
    ensures |Continuity(history)| == if |ConversationIndexes(history)| < 2 then |ConversationIndexes(history)| else 2
    ensures forall i, k :: 0 <= i < |history| && history[i].kind != "runtime_note" && i !in Continuity(history) && k in Continuity(history) ==> i < k
  {
    forall i, k | 0 <= i < |history| && history[i].kind != "runtime_note" && i !in Continuity(history) && k in Continuity(history)
      ensures i < k
    {
      LastOfIsLast(ConversationIndexes(history), 2, i, k);
    }
  }

  /** The selection: those of the last two conversation records that fit, then greedily the newest. */
  ghost predicate Selects(history: seq<HistoryRecord>, available: nat, selected: set<nat>) {
    Greedy(Costs(history), KeepThatFit(Costs(history), Continuity(history), available), selected, available)
  }

  method SelectIndexes(history: seq<HistoryRecord>, available: nat) returns (selected: set<nat>, used: nat)
    ensures Selects(history, available, selected)
    ensures used == Tokens(Pick(history, selected)) <= available
  {
    var costs := Costs(history);
    var first, spent := ProtectContinuity(costs, Continuity(history), available);
    selected, used := FillFromNewest(costs, first, available);
    PickWeighs(history, selected);
  }

  /** What is reported about a selection. */
  ghost predicate Reports(built: BuiltContext, history: seq<HistoryRecord>, selected: set<nat>) {
    && built.selectedHistory == Pick(history, selected) && OldestFirst(built.selectedHistory)
    && built.conversationHistory == Conversation(built.selectedHistory)
    && built.runtimeNotes == Notes(built.selectedHistory)
    && built.transcript == Join(Rendered(built.selectedHistory), "\n")
    && built.totalHistoryCount == |history|
    && built.totalConversationCount == |ConversationIndexes(history)|
    && built.protectedConversationContinuityCount == |Continuity(history)|
  }

  /** Selected plus dropped makes the total, for each kind. */
  predicate CountsAddUp(built: BuiltContext) {
    && |built.conversationHistory| + built.droppedConversationCount == built.totalConversationCount
    && |built.runtimeNotes| + built.droppedRuntimeNoteCount == built.totalRuntimeNoteCount
    && built.totalConversationCount + built.totalRuntimeNoteCount == built.totalHistoryCount
    && |built.conversationHistory| + |built.runtimeNotes| == |built.selectedHistory|
  }

  /**
   The accounted tokens are the cost of what is selected and within budget; what is selected
   is an ordered part of the history; nothing is lost in the counts.
   */
  method BuildSessionContext(
      events: seq<HistoryRecord>, supplementalHistory: seq<HistoryRecord>,
      systemPrompt: string, incomingMessage: string, tokenBudget: int)
    returns (built: BuiltContext, selected: set<nat>)
    ensures Selects(History(events, supplementalHistory), Available(tokenBudget, systemPrompt, incomingMessage), selected)
    ensures Reports(built, History(events, supplementalHistory), selected)
    ensures built.estimatedTokens == Tokens(built.selectedHistory) <= Available(tokenBudget, systemPrompt, incomingMessage)
    ensures CountsAddUp(built) && built.totalHistoryCount == |events| + |supplementalHistory|
    ensures OldestFirst(History(events, supplementalHistory))
    ensures multiset(History(events, supplementalHistory)) == multiset(events) + multiset(supplementalHistory)
  {
    var history := History(events, supplementalHistory);
    HistoryFacts(events, supplementalHistory);
    var used;
    selected, used := SelectIndexes(history, Available(tokenBudget, systemPrompt, incomingMessage));
    built := Describe(history, selected, used, tokenBudget);
  }

  method Describe(history: seq<HistoryRecord>, selected: set<nat>, used: nat, tokenBudget: int) returns (built: BuiltContext)
    requires Sorted(history, Older)
    ensures Reports(built, history, selected) && CountsAddUp(built)
    ensures built.tokenBudget == tokenBudget && built.estimatedTokens == used
  {
    var picked := Pick(history, selected);
    PickKeepsOrder(history, selected);
    PickedOfEachKind(history, selected);
    KindsPartition(picked);
    var conversationCount := |ConversationIndexes(history)|;
    var conversation, notes := Conversation(picked), Notes(picked);
    built := BuiltContext(
      tokenBudget, used, |history|, conversationCount, |history| - conversationCount,
      conversationCount - |conversation|, |history| - conversationCount - |notes|,
      |Continuity(history)|, picked, conversation, notes, Join(Rendered(picked), "\n"));
  }

  lemma HistoryFacts(events: seq<HistoryRecord>, supplemental: seq<HistoryRecord>)
    ensures Sorted(History(events, supplemental), Older) && OldestFirst(History(events, supplemental))
    ensures multiset(History(events, supplemental)) == multiset(events) + multiset(supplemental)
    ensures |History(events, supplemental)| == |events| + |supplemental|
  {
    assert TotalPreorder(Older);
    SortSorts(events + supplemental, Older);
    SortPermutes(events + supplemental, Older);
  }

  /** Records of one moment keep their order, those of the session before the supplemental ones. */
  lemma SameMomentKeepsOrder(events: seq<HistoryRecord>, supplemental: seq<HistoryRecord>, x: HistoryRecord)
    ensures Filter(History(events, supplemental), Level(x, Older)) == Filter(events, Level(x, Older)) + Filter(supplemental, Level(x, Older))
    ensures forall y :: Level(x, Older)(y) <==> x.timestamp == y.timestamp
  {
    assert TotalPreorder(Older);
    SortIsStable(events + supplemental, x, Older);
    FilterAppend(events, supplemental, Level(x, Older));
  }

  // ----- the last two conversation records

  lemma KeepOne(costs: seq<nat>, a: nat, available: nat)
    requires a < |costs|
    ensures KeepThatFit(costs, [a], available) == if costs[a] <= available then {a} else {}
    ensures Weight(costs, {a}) == costs[a]
  {
    WeightOfNone(costs);
    WeightAdd(costs, {}, a);
    assert {} + {a} == {a};
    assert [a][..0] == [];
    assert KeepThatFit(costs, [], available) == {};
  }

  lemma KeepPair(costs: seq<nat>, a: nat, b: nat, available: nat)
    requires a < b < |costs|
    ensures costs[a] + costs[b] <= available ==> KeepThatFit(costs, [a, b], available) == {a, b}
    ensures costs[a] <= available < costs[a] + costs[b] ==> KeepThatFit(costs, [a, b], available) == {a}
    ensures costs[b] <= available < costs[a] ==> KeepThatFit(costs, [a, b], available) == {b}
  {
    KeepOne(costs, a, available);
    KeepOne(costs, b, available);
    WeightAdd(costs, {a}, b);
    assert [a, b][..1] == [a];
    assert {a} + {b} == {a, b} && {} + {b} == {b};
  }

  /**
   What becomes of the last two conversation records `a` and `b`. Both are kept exactly when they
   fit together. The older is kept exactly when it fits; the newest is kept exactly when it fits
   and the older, tried first, does not crowd it out.
   */
  lemma ContinuitySurvives(history: seq<HistoryRecord>, chosen: set<nat>, available: nat, a: nat, b: nat)
    requires Continuity(history) == [a, b] && Selects(history, available, chosen)
    ensures a < b < |history|
    ensures a in chosen && b in chosen <==> Cost(history[a]) + Cost(history[b]) <= available
    ensures a in chosen <==> Cost(history[a]) <= available
    ensures b in chosen <==>
      Cost(history[b]) <= available && !(Cost(history[a]) <= available < Cost(history[a]) + Cost(history[b]))
  {
    assert a in Continuity(history) && b in Continuity(history);
    assert Continuity(history)[0] < Continuity(history)[1];
    var costs := Costs(history);
    KeepPair(costs, a, b, available);
    KeepOne(costs, a, available);
    KeepOne(costs, b, available);
    WeightAdd(costs, {a}, b);
    ChosenFits(costs, chosen, available, a, b);
    if costs[a] <= available {
      assert a in KeepThatFit(costs, [a, b], available);
    } else if costs[b] <= available {
      assert b in KeepThatFit(costs, [a, b], available);
    }
  }

  /** What is chosen fits, alone and together. */
  lemma ChosenFits(costs: seq<nat>, chosen: set<nat>, available: nat, a: nat, b: nat)
    requires a < b < |costs| && Weight(costs, chosen) <= available
    ensures a in chosen ==> costs[a] <= available
    ensures b in chosen ==> costs[b] <= available
    ensures a in chosen && b in chosen ==> costs[a] + costs[b] <= available
  {
    KeepOne(costs, a, available);
    KeepOne(costs, b, available);
    WeightAdd(costs, {a}, b);
    if a in chosen {
      WeightGrows(costs, {a}, chosen);
    }
    if b in chosen {
      WeightGrows(costs, {b}, chosen);
    }
    if a in chosen && b in chosen {
      WeightGrows(costs, {a} + {b}, chosen);
    }
  }
}
