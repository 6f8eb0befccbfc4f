/**
 Merging the candidates of several retrieval backends into one per merge key, and keeping the
 best of them.
 */
module Retrieval {
  import opened Options
  import opened Strings
  import opened Sorting
  import opened Grouping

  datatype Evidence = Evidence(
    backend: string, source: string, score: real, reasons: seq<string>, setupMatch: Option<bool>, sessionRelation: Option<string>)

  datatype Confidence = Low | Medium | High

  datatype Candidate = Candidate(
    backend: string, source: string, score: real, reasons: seq<string>,
    sessionId: Option<string>, eventId: Option<string>, wakeId: Option<string>, title: string, snippet: string,
    createdAt: Option<int>,
    setupFingerprint: Option<string>, setupMatch: Option<bool>, sessionRelation: Option<string>,
    requiresAction: Option<bool>, pendingActionKind: Option<string>, pendingActionToolName: Option<string>,
    outcomeStatus: Option<string>, promotionReady: Option<bool>, outcomeTrend: Option<string>,
    evidence: Option<seq<Evidence>>, confidence: Option<Confidence>)

  function KeyParts(c: Candidate): seq<string> {
    if Truthy(c.wakeId) && !Truthy(c.eventId) then ["wake", c.sessionId.GetOr("none"), c.wakeId.value]
    else if Truthy(c.sessionId) || Truthy(c.eventId) then ["anchor", c.sessionId.GetOr("none"), c.eventId.GetOr("none")]
    else ["content", c.source, c.title, c.snippet]
  }

  /** Parts joined by `::` without escaping, so that a separator inside a part can make two keys meet. */
  function BuildMergeKey(c: Candidate): string {
    Join(KeyParts(c), "::")
  }

  /** Which event a candidate points at, if any: a wake as a whole, an event or session, or just its text. */
  datatype Anchor =
    | OfWake(session: string, wake: string)
    | OfSession(session: string, event: string)
    | OfText(source: string, title: string, snippet: string)

  /** `a` identifies the candidate; a missing session or event is called "none". */
  predicate Identifies(a: Anchor, c: Candidate) {
    var session := if c.sessionId.Some? then c.sessionId.value else "none";
    var hasEvent := c.eventId.Some? && c.eventId.value != "";
    match a
    case OfWake(s, w) => c.wakeId == Some(w) && w != "" && !hasEvent && s == session
    case OfSession(s, e) =>
      && (c.wakeId.None? || c.wakeId.value == "" || hasEvent)
      && (hasEvent || (c.sessionId.Some? && c.sessionId.value != ""))
      && s == session && e == if c.eventId.Some? then c.eventId.value else "none"
    case OfText(source, title, snippet) =>
      && (c.wakeId.None? || c.wakeId.value == "") && !hasEvent && (c.sessionId.None? || c.sessionId.value == "")
      && source == c.source && title == c.title && snippet == c.snippet
  }

  /** Candidates have the same key parts exactly when they point at the same thing. */
  lemma KeyPartsIdentify(a: Candidate, b: Candidate, x: Anchor, y: Anchor)
    requires Identifies(x, a) && Identifies(y, b)
    ensures KeyParts(a) == KeyParts(b) <==> x == y
  {
    var p, q := KeyParts(a), KeyParts(b);
    assert "wake"[0] == 'w' && "anchor"[0] == 'a' && "content"[0] == 'c';
    if p == q {
      assert p[0] == q[0] && p[1] == q[1] && p[2] == q[2];
    }
  }

  function ToEvidence(c: Candidate): Evidence {
    Evidence(c.backend, c.source, c.score, c.reasons, c.setupMatch, c.sessionRelation)
  }

  function EvidenceOf(c: Candidate): seq<Evidence> {
    c.evidence.GetOr([ToEvidence(c)])
  }

  function ComputeRetrievalConfidence(score: real, evidenceCount: nat): (r: Confidence)
    ensures r == High <==> evidenceCount > 1 || score >= 10.0
    ensures r == Low <==> evidenceCount <= 1 && score < 6.0
  {
    if evidenceCount >= 2 || score >= 10.0 then High else if score >= 6.0 then Medium else Low
  }

  // ----- evidence, one entry per backend and source

  type Pair = (string, string)

  function PairOf(e: Evidence): Pair {
    (e.backend, e.source)
  }

  function Pairs(es: seq<Evidence>): set<Pair> {
    if es == [] then {} else Pairs(es[..|es| - 1]) + {PairOf(es[|es| - 1])}
  }

  predicate OncePerPair(es: seq<Evidence>) {
    es == [] || (OncePerPair(es[..|es| - 1]) && PairOf(es[|es| - 1]) !in Pairs(es[..|es| - 1]))
  }

  lemma PairsNext(es: seq<Evidence>, e: Evidence)
    ensures Pairs(es + [e]) == Pairs(es) + {PairOf(e)}
    ensures OncePerPair(es + [e]) <==> OncePerPair(es) && PairOf(e) !in Pairs(es)
  {
    assert (es + [e])[..|es|] == es;
  }

  lemma {:induction false} PairsAre(es: seq<Evidence>)
    ensures forall p :: p in Pairs(es) <==> exists e :: e in es && PairOf(e) == p
    ensures |Pairs(es)| <= |es|
    ensures OncePerPair(es) ==> |Pairs(es)| == |es|
  {
    if es != [] {
      var last := es[|es| - 1];
      PairsAre(es[..|es| - 1]);
      forall p ensures p in Pairs(es) <==> exists e :: e in es && PairOf(e) == p {
        if p == PairOf(last) {
          assert last in es;
        }
      }
    }
  }

  /** The inner loop: appends each piece of evidence whose backend and source are new. */
  method MergeEvidence(prior: seq<Evidence>, next: seq<Evidence>) returns (merged: seq<Evidence>)
    ensures merged == WithNewPairs(prior, next)
  {
    merged := prior;
    for k := 0 to |next|
      invariant merged == WithNewPairs(prior, next[..k])
    {
      assert next[..k + 1][..k] == next[..k];
      var known := false;
      PairsAre(merged);
      for i := 0 to |merged|
        invariant known <==> exists j :: 0 <= j < i && PairOf(merged[j]) == PairOf(next[k])
      {
        known := known || (merged[i].backend == next[k].backend && merged[i].source == next[k].source);
      }
      if known {
        continue;
      }
      merged := merged + [next[k]];
    }
    assert next[..|next|] == next;
  }

  function WithNewPairs(prior: seq<Evidence>, next: seq<Evidence>): (r: seq<Evidence>)
    ensures prior <= r
  {
    if next == [] then prior
    else
      var before := WithNewPairs(prior, next[..|next| - 1]);
      var e := next[|next| - 1];
      if PairOf(e) in Pairs(before) then before else before + [e]
  }

  /** The pairs of both sides, each new one once: distinct exactly when the prior ones were. */
  lemma {:induction false} WithNewPairsCovers(prior: seq<Evidence>, next: seq<Evidence>)
    ensures Pairs(WithNewPairs(prior, next)) == Pairs(prior) + Pairs(next)
    ensures OncePerPair(WithNewPairs(prior, next)) <==> OncePerPair(prior)
  {
    if next != [] {
      var front, last := next[..|next| - 1], next[|next| - 1];
      WithNewPairsCovers(prior, front);
      PairsNext(WithNewPairs(prior, front), last);
      assert Pairs(next) == Pairs(front) + {PairOf(last)};
    }
  }

  // ----- one candidate out of several

  function MaxReal(a: real, b: real): real {
    if a >= b then a else b
  }

  function SupportBonus(evidenceCount: nat): nat {
    if evidenceCount == 0 then 0 else evidenceCount - 1
  }

  /** The distinct strings, by first appearance. */
  function Distinct(items: seq<string>): (r: seq<string>)
    ensures forall x :: x in r <==> x in items
    ensures forall i, j :: 0 <= i < j < |r| ==> r[i] != r[j]
  {
    if items == [] then []
    else
      var before := Distinct(items[..|items| - 1]);
      var last := items[|items| - 1];
      if last in before then before else before + [last]
  }

  function Admit(c: Candidate): Candidate {
    c.(evidence := Some(EvidenceOf(c)), confidence := Some(ComputeRetrievalConfidence(c.score, |EvidenceOf(c)|)))
  }

  function Combine(existing: Candidate, c: Candidate): Candidate {
    var strongest := if c.score > existing.score then c else existing;
    var evidence := WithNewPairs(EvidenceOf(existing), EvidenceOf(c));
    var score := MaxReal(existing.score, c.score) + SupportBonus(|evidence|) as real;
    strongest.(
      setupFingerprint := strongest.setupFingerprint.OrElse(existing.setupFingerprint).OrElse(c.setupFingerprint),
      setupMatch := strongest.setupMatch.OrElse(existing.setupMatch).OrElse(c.setupMatch),
      sessionRelation := strongest.sessionRelation.OrElse(existing.sessionRelation).OrElse(c.sessionRelation),
      requiresAction := strongest.requiresAction.OrElse(existing.requiresAction).OrElse(c.requiresAction),
      pendingActionKind := strongest.pendingActionKind.OrElse(existing.pendingActionKind).OrElse(c.pendingActionKind),
      pendingActionToolName := strongest.pendingActionToolName.OrElse(existing.pendingActionToolName).OrElse(c.pendingActionToolName),
      outcomeStatus := strongest.outcomeStatus.OrElse(existing.outcomeStatus).OrElse(c.outcomeStatus),
      promotionReady := strongest.promotionReady.OrElse(existing.promotionReady).OrElse(c.promotionReady),
      outcomeTrend := strongest.outcomeTrend.OrElse(existing.outcomeTrend).OrElse(c.outcomeTrend),
      reasons := Distinct(existing.reasons + c.reasons),
      score := score,
      evidence := Some(evidence),
      confidence := Some(ComputeRetrievalConfidence(score, |evidence|)))
  }

  /** Where the first has nothing to say, the second is heard. */
  predicate Prefers<T(==)>(r: Option<T>, first: Option<T>, second: Option<T>) {
    r == if first.Some? then first else second
  }

  /** What points at the event is all taken from one candidate. */
  predicate SameTarget(m: Candidate, c: Candidate) {
    && m.backend == c.backend && m.source == c.source && m.title == c.title && m.snippet == c.snippet
    && m.sessionId == c.sessionId && m.eventId == c.eventId && m.wakeId == c.wakeId && m.createdAt == c.createdAt
  }

  /** Every optional fact is the stronger candidate's, or for want of one the weaker's. */
  predicate FactsOf(m: Candidate, strong: Candidate, weak: Candidate) {
    && Prefers(m.setupFingerprint, strong.setupFingerprint, weak.setupFingerprint)
    && Prefers(m.setupMatch, strong.setupMatch, weak.setupMatch)
    && Prefers(m.sessionRelation, strong.sessionRelation, weak.sessionRelation)
    && Prefers(m.requiresAction, strong.requiresAction, weak.requiresAction)
    && Prefers(m.pendingActionKind, strong.pendingActionKind, weak.pendingActionKind)
    && Prefers(m.pendingActionToolName, strong.pendingActionToolName, weak.pendingActionToolName)
    && Prefers(m.outcomeStatus, strong.outcomeStatus, weak.outcomeStatus)
    && Prefers(m.promotionReady, strong.promotionReady, weak.promotionReady)
    && Prefers(m.outcomeTrend, strong.outcomeTrend, weak.outcomeTrend)
  }

  /** The first candidate under a key is kept as it is, with its evidence and what that is worth. */
  lemma AdmitMeans(c: Candidate)
    ensures
      var m := Admit(c);
      && SameTarget(m, c) && FactsOf(m, c, c) && m.score == c.score && m.reasons == c.reasons
      && m.evidence.Some? && (c.evidence.Some? ==> m.evidence == c.evidence)
      && (c.evidence.None? ==>
            && |m.evidence.value| == 1
            && var e := m.evidence.value[0];
            && e.backend == c.backend && e.source == c.source && e.score == c.score && e.reasons == c.reasons
            && e.setupMatch == c.setupMatch && e.sessionRelation == c.sessionRelation)
      && (m.confidence == Some(High) <==> |m.evidence.value| > 1 || c.score >= 10.0)
      && (m.confidence == Some(Low) <==> |m.evidence.value| <= 1 && c.score < 6.0)
  {
  }

  /**
   One more candidate under a key: target and facts come from the one with the higher score, the
   one already there winning a tie; reasons are those of both, each once; each piece of evidence
   after the first adds one to the higher score.
   */
  lemma CombineMeans(existing: Candidate, c: Candidate)
    ensures
      var m := Combine(existing, c);
      var strong, weak := if c.score > existing.score then c else existing, if c.score > existing.score then existing else c;
      && SameTarget(m, strong) && FactsOf(m, strong, weak)
      && (forall x :: x in m.reasons <==> x in existing.reasons || x in c.reasons)
      && (forall i, j :: 0 <= i < j < |m.reasons| ==> m.reasons[i] != m.reasons[j])
      && m.evidence.Some? && EvidenceOf(existing) <= m.evidence.value
      && Pairs(m.evidence.value) == Pairs(EvidenceOf(existing)) + Pairs(EvidenceOf(c))
      && m.score == strong.score + (if m.evidence.value == [] then 0 else |m.evidence.value| - 1) as real
      && (m.confidence == Some(High) <==> |m.evidence.value| > 1 || m.score >= 10.0)
      && (m.confidence == Some(Low) <==> |m.evidence.value| <= 1 && m.score < 6.0)
  {
    WithNewPairsCovers(EvidenceOf(existing), EvidenceOf(c));
  }

  /** The candidates of one key, merged in the order they came. */
  function MergeAll(cs: seq<Candidate>): Candidate
    requires cs != []
  {
    Fold(cs, Admit, Combine)
  }

  lemma MergeStep(cs: seq<Candidate>)
    requires cs != []
    ensures MergeAll(cs) == if |cs| == 1 then Admit(cs[0]) else Combine(MergeAll(cs[..|cs| - 1]), cs[|cs| - 1])
    ensures MergeAll(cs).evidence.Some?
  {
  }

  function Best(cs: seq<Candidate>): real
    requires cs != []
  {
    if |cs| == 1 then cs[0].score else MaxReal(Best(cs[..|cs| - 1]), cs[|cs| - 1].score)
  }

  function AllPairs(cs: seq<Candidate>): set<Pair> {
    if cs == [] then {} else AllPairs(cs[..|cs| - 1]) + Pairs(EvidenceOf(cs[|cs| - 1]))
  }

  /** The evidence covers exactly the pairs of the inputs, each once unless the first input repeated one. */
  lemma {:induction false} MergedEvidence(cs: seq<Candidate>)
    requires cs != []
    ensures Pairs(EvidenceOf(MergeAll(cs))) == AllPairs(cs)
    ensures OncePerPair(EvidenceOf(MergeAll(cs))) <==> OncePerPair(EvidenceOf(cs[0]))
  {
    MergeStep(cs);
    if |cs| == 1 {
      assert cs[..0] == [];
      assert AllPairs([]) == {};
    } else {
      var before := MergeAll(cs[..|cs| - 1]);
      MergedEvidence(cs[..|cs| - 1]);
      WithNewPairsCovers(EvidenceOf(before), EvidenceOf(cs[|cs| - 1]));
    }
  }

  lemma MoreBonus(rounds: nat, less: nat, more: nat)
    requires less <= more
    ensures rounds * less + more <= (rounds + 1) * more
  {
    assert rounds * less <= rounds * more;
  }

  lemma ScoreStep(best: real, score: real, next: real, rounds: nat, less: nat, more: nat)
    requires best <= score <= best + (rounds * less) as real && less <= more
    ensures MaxReal(best, next) <= MaxReal(score, next) + more as real <= MaxReal(best, next) + ((rounds + 1) * more) as real
  {
    MoreBonus(rounds, less, more);
    assert (rounds * less + more) as real == (rounds * less) as real + more as real;
  }

  /** Between the best score and that plus one support bonus per further input. */
  lemma {:induction false} MergedScore(cs: seq<Candidate>)
    requires cs != []
    ensures Best(cs) <= MergeAll(cs).score
    ensures MergeAll(cs).score <= Best(cs) + ((|cs| - 1) * SupportBonus(|EvidenceOf(MergeAll(cs))|)) as real
  {
    MergeStep(cs);
    if |cs| > 1 {
      var front, last := cs[..|cs| - 1], cs[|cs| - 1];
      MergedScore(front);
      var less, more := SupportBonus(|EvidenceOf(MergeAll(front))|), SupportBonus(|EvidenceOf(MergeAll(cs))|);
      ScoreStep(Best(front), MergeAll(front).score, last.score, |front| - 1, less, more);
    }
  }

  predicate EvidenceFree(cs: seq<Candidate>) {
    forall c :: c in cs ==> c.evidence.None?
  }

  lemma OwnEvidence(c: Candidate)
    requires c.evidence.None?
    ensures |EvidenceOf(c)| == 1 && OncePerPair(EvidenceOf(c))
  {
    PairsNext([], ToEvidence(c));
    assert [] + EvidenceOf(c) == EvidenceOf(c);
  }

  /** For inputs that bring no evidence of their own, the number of pairs bounds the bonus. */
  lemma MergedScoreByPairs(cs: seq<Candidate>)
    requires cs != [] && EvidenceFree(cs)
    ensures |EvidenceOf(MergeAll(cs))| == |AllPairs(cs)| >= 1
    ensures Best(cs) <= MergeAll(cs).score <= Best(cs) + ((|cs| - 1) * (|AllPairs(cs)| - 1)) as real
  {
    MergedScore(cs);
    MergedEvidence(cs);
    assert cs[0] in cs;
    OwnEvidence(cs[0]);
    PairsAre(EvidenceOf(MergeAll(cs)));
    MergedKeepsFirst(cs);
  }

  lemma {:induction false} MergedKeepsFirst(cs: seq<Candidate>)
    requires cs != []
    ensures EvidenceOf(cs[0]) <= EvidenceOf(MergeAll(cs))
  {
    MergeStep(cs);
    if |cs| > 1 {
      MergedKeepsFirst(cs[..|cs| - 1]);
    }
  }

  /** A merged candidate still carries the key of its inputs. */
  lemma {:induction false} MergedKey(cs: seq<Candidate>, key: string)
    requires cs != [] && forall c :: c in cs ==> BuildMergeKey(c) == key
    ensures BuildMergeKey(MergeAll(cs)) == key
  {
    MergeStep(cs);
    if |cs| > 1 {
      MergedKey(cs[..|cs| - 1], key);
      assert BuildMergeKey(cs[|cs| - 1]) == key;
    } else {
      assert BuildMergeKey(cs[0]) == key;
    }
  }

  // ----- the merge loop

  /** An insertion-ordered map that holds, for every key seen, the merge of its candidates. */
  ghost predicate MergedSoFar(keys: seq<string>, table: map<string, Candidate>, seen: seq<Candidate>) {
    Folded(keys, table, seen, BuildMergeKey, Admit, Combine)
  }

  // ----- the ranking

  function CreatedAt(c: Candidate): int {
    c.createdAt.GetOr(0)
  }

  /** `a` may stand before `b`: by score, then setup match, then relation, then the newer. */
  predicate RanksBefore(a: Candidate, b: Candidate) {
    if a.score != b.score then a.score > b.score
    else if (a.setupMatch == Some(true)) != (b.setupMatch == Some(true)) then a.setupMatch == Some(true)
    else if Truthy(a.sessionRelation) != Truthy(b.sessionRelation) then Truthy(a.sessionRelation)
    else CreatedAt(a) >= CreatedAt(b)
  }

  predicate Named(relation: Option<string>) {
    relation.Some? && relation.value != ""
  }

  /** The higher score wins, then a setup that matches, then a named relation, then the newer one; no date is the epoch. */
  predicate Outranks(a: Candidate, b: Candidate) {
    var matchA, matchB := a.setupMatch == Some(true), b.setupMatch == Some(true);
    var namedA, namedB := Named(a.sessionRelation), Named(b.sessionRelation);
    var newA, newB := if a.createdAt.Some? then a.createdAt.value else 0, if b.createdAt.Some? then b.createdAt.value else 0;
    || a.score > b.score
    || (a.score == b.score && matchA && !matchB)
    || (a.score == b.score && matchA == matchB && namedA && !namedB)
    || (a.score == b.score && matchA == matchB && namedA == namedB && newA > newB)
  }

  /** The ranking is a total preorder, and one candidate may stand before another unless it is outranked. */
  lemma RankingIsTotal()
    ensures TotalPreorder(RanksBefore)
    ensures forall a, b :: RanksBefore(a, b) <==> !Outranks(b, a)
  {
  }

  /** The host language's `slice(0, end)`: a negative end counts from the back. */
  function SliceTo<T>(s: seq<T>, end: int): seq<T> {
    if end >= |s| then s else if end >= 0 then s[..end] else if |s| + end > 0 then s[..|s| + end] else []
  }

  /** Sorts its argument in place and returns the first ones. */
  method RankRetrievalCandidates(candidates: array<Candidate>, limit: int) returns (ranked: seq<Candidate>)
    modifies candidates
    ensures candidates[..] == StableSort(old(candidates[..]), RanksBefore)
    ensures ranked == SliceTo(candidates[..], limit)
  {
    var sorted := StableSort(candidates[..], RanksBefore);
    SortPermutes(candidates[..], RanksBefore);
    forall i | 0 <= i < candidates.Length {
      candidates[i] := sorted[i];
    }
    assert candidates[..] == sorted;
    ranked := SliceTo(candidates[..], limit);
  }

  lemma SliceIsPrefix<T>(s: seq<T>, end: int)
    ensures |SliceTo(s, end)| <= |s| && SliceTo(s, end) == s[..|SliceTo(s, end)|]
    ensures end >= 0 ==> |SliceTo(s, end)| == if end < |s| then end else |s|
    ensures end < 0 ==> |SliceTo(s, end)| == if |s| + end > 0 then |s| + end else 0
  {
  }

  /** A true top-k: in order, as many as the limit allows, and nothing dropped outranks anything kept. */
  ghost predicate BestOf(kept: seq<Candidate>, dropped: seq<Candidate>, values: seq<Candidate>, limit: int) {
    && multiset(kept) + multiset(dropped) == multiset(values)
    && (forall i, j :: 0 <= i < j < |kept| ==> !Outranks(kept[j], kept[i]))
    && (forall x, y :: x in kept && y in dropped ==> !Outranks(y, x))
    && (limit >= 0 ==> |kept| == if limit < |values| then limit else |values|)
    && (limit < 0 ==> |kept| == if |values| + limit > 0 then |values| + limit else 0)
  }

  lemma TopK(values: seq<Candidate>, limit: int) returns (dropped: seq<Candidate>)
    ensures BestOf(SliceTo(StableSort(values, RanksBefore), limit), dropped, values, limit)
    ensures StableSort(values, RanksBefore) == SliceTo(StableSort(values, RanksBefore), limit) + dropped
  {
    RankingIsTotal();
    SortSorts(values, RanksBefore);
    SortPermutes(values, RanksBefore);
    var sorted := StableSort(values, RanksBefore);
    SliceIsPrefix(sorted, limit);
    var n := |SliceTo(sorted, limit)|;
    CutOfSorted(sorted, n, RanksBefore);
    dropped := sorted[n..];
    assert sorted == sorted[..n] + sorted[n..];
  }

  /** Candidates of which neither outranks the other keep the order they came in. */
  lemma TiesKeepOrder(values: seq<Candidate>, x: Candidate)
    ensures Filter(StableSort(values, RanksBefore), Level(x, RanksBefore)) == Filter(values, Level(x, RanksBefore))
    ensures forall y :: Level(x, RanksBefore)(y) <==> !Outranks(x, y) && !Outranks(y, x)
  {
    RankingIsTotal();
    SortIsStable(values, x, RanksBefore);
  }

  // ----- the merge as a whole

  ghost predicate OnePerKey(cs: seq<Candidate>) {
    DistinctBy(cs, BuildMergeKey)
  }

  /** A value of the map is the merge of its key's candidates, and still carries that key. */
  lemma MergedValue(keys: seq<string>, table: map<string, Candidate>, seen: seq<Candidate>, key: string)
    requires MergedSoFar(keys, table, seen) && key in keys
    ensures WithKey(seen, BuildMergeKey, key) != []
    ensures table[key] == MergeAll(WithKey(seen, BuildMergeKey, key))
    ensures BuildMergeKey(table[key]) == key
  {
    assert EntryOf(table[key], seen, BuildMergeKey, Admit, Combine, key);
    MergedKey(WithKey(seen, BuildMergeKey, key), key);
  }

  /** What a merge returns: per key the merge of its candidates, ranked, and cut at the limit. */
  ghost predicate IsMerge(results: seq<Candidate>, keys: seq<string>, table: map<string, Candidate>, seen: seq<Candidate>, limit: int) {
    && MergedSoFar(keys, table, seen)
    && results == SliceTo(StableSort(Values(table, keys), RanksBefore), limit)
  }

  /** One merged candidate per key, ranked, as many as the limit allows. */
  method MergeRetrievalCandidates(candidateGroups: seq<seq<Candidate>>, limit: int)
    returns (results: seq<Candidate>, keys: seq<string>, table: map<string, Candidate>)
    ensures IsMerge(results, keys, table, Flatten(candidateGroups), limit)
    ensures OnePerKey(results)
    ensures exists dropped :: BestOf(results, dropped, Values(table, keys), limit)
    ensures limit >= 0 ==> |results| == if limit < |keys| then limit else |keys|
  {
    keys, table := FoldGroups(candidateGroups, BuildMergeKey, Admit, Combine);
    var list := Values(table, keys);
    var values := new Candidate[|list|](i requires 0 <= i < |list| => list[i]);
    assert values[..] == list;
    ValuesDistinct(keys, table, Flatten(candidateGroups));
    RankedDistinct(list, limit);
    results := RankRetrievalCandidates(values, limit);
    var dropped := TopK(list, limit);
  }

  lemma ValuesDistinct(keys: seq<string>, table: map<string, Candidate>, seen: seq<Candidate>)
    requires MergedSoFar(keys, table, seen)
    ensures OnePerKey(Values(table, keys))
  {
    var list := Values(table, keys);
    forall i, j | 0 <= i < j < |list| ensures BuildMergeKey(list[i]) != BuildMergeKey(list[j]) {
      MergedValue(keys, table, seen, keys[i]);
      MergedValue(keys, table, seen, keys[j]);
    }
  }

  lemma SliceKeepsDistinct(s: seq<Candidate>, limit: int)
    requires OnePerKey(s)
    ensures OnePerKey(SliceTo(s, limit))
  {
    SliceIsPrefix(s, limit);
  }

  lemma RankedDistinct(list: seq<Candidate>, limit: int)
    requires OnePerKey(list)
    ensures OnePerKey(SliceTo(StableSort(list, RanksBefore), limit))
    ensures limit >= 0 ==> |SliceTo(StableSort(list, RanksBefore), limit)| == if limit < |list| then limit else |list|
  {
    SortPermutes(list, RanksBefore);
    PermutationDistinct(list, StableSort(list, RanksBefore), BuildMergeKey);
    SliceKeepsDistinct(StableSort(list, RanksBefore), limit);
    SliceIsPrefix(StableSort(list, RanksBefore), limit);
  }

  // ----- when keys tell candidates apart

  /** No part but the last holds a colon. */
  predicate PlainParts(parts: seq<string>) {
    forall i :: 0 <= i < |parts| - 1 ==> ':' !in parts[i]
  }

  lemma FirstPartSame(x: string, y: string, r: string, t: string)
    requires ':' !in x && ':' !in y && x + "::" + r == y + "::" + t
    ensures x == y && r == t
  {
    var a, b := x + "::" + r, y + "::" + t;
    assert a[|x|] == ':' && b[|y|] == ':';
    assert x == a[..|x|] && y == b[..|y|];
    assert r == a[|x| + 2..] && t == b[|y| + 2..];
  }

  lemma {:induction false} JoinTellsApart(p: seq<string>, q: seq<string>)
    requires |p| == |q| && PlainParts(p) && PlainParts(q) && Join(p, "::") == Join(q, "::")
    ensures p == q
  {
    if |p| > 1 {
      FirstPartSame(p[0], q[0], Join(p[1..], "::"), Join(q[1..], "::"));
      assert forall i :: 0 <= i < |p| - 2 ==> p[1..][i] == p[i + 1] && q[1..][i] == q[i + 1];
      JoinTellsApart(p[1..], q[1..]);
      assert p == [p[0]] + p[1..] && q == [q[0]] + q[1..];
    }
  }

  /**
   Candidates whose identifying parts, all but the last, hold no colon share a key exactly when
   they share those parts.
   */
  lemma PlainKeysTellApart(a: Candidate, b: Candidate)
    requires PlainParts(KeyParts(a)) && PlainParts(KeyParts(b))
    ensures BuildMergeKey(a) == BuildMergeKey(b) <==> KeyParts(a) == KeyParts(b)
  {
    var p, q := KeyParts(a), KeyParts(b);
    if BuildMergeKey(a) == BuildMergeKey(b) {
      assert ':' !in p[0] && ':' !in q[0];
      FirstPartSame(p[0], q[0], Join(p[1..], "::"), Join(q[1..], "::"));
      KindGivesLength(a);
      KindGivesLength(b);
      JoinTellsApart(p, q);
    }
  }

  lemma KindGivesLength(c: Candidate)
    ensures |KeyParts(c)| == if KeyParts(c)[0] == "content" then 4 else 3
  {
    assert "wake"[0] == 'w' && "anchor"[0] == 'a' && "content"[0] == 'c';
  }

  function Plain(title: string, snippet: string): Candidate {
    Candidate("memory", "notes", 1.0, [], None, None, None, title, snippet, None, None, None, None, None, None, None, None, None, None, None, None)
  }

  lemma JoinFour(a: string, b: string, c: string, d: string)
    ensures Join([a, b, c, d], "::") == a + "::" + (b + "::" + (c + "::" + d))
  {
    var one, two, three, four := [d], [c, d], [b, c, d], [a, b, c, d];
    assert four[1..] == three && three[1..] == two && two[1..] == one;
    assert Join(two, "::") == c + "::" + Join(one, "::");
    assert Join(three, "::") == b + "::" + Join(two, "::");
  }

  lemma ConcatAssociates(x: string, y: string, z: string, separator: string)
    ensures (x + separator + y) + separator + z == x + separator + (y + separator + z)
  {
  }

  /** The separator is not escaped: whatever the texts, a title that holds it can share its key with another content. */
  lemma DifferentContentsCanShareKey(x: string, y: string, z: string)
    ensures KeyParts(Plain(x + "::" + y, z)) != KeyParts(Plain(x, y + "::" + z))
    ensures BuildMergeKey(Plain(x + "::" + y, z)) == BuildMergeKey(Plain(x, y + "::" + z))
    ensures !PlainParts(KeyParts(Plain(x + "::" + y, z)))
  {
    var a, b := Plain(x + "::" + y, z), Plain(x, y + "::" + z);
    JoinFour("content", "notes", a.title, a.snippet);
    JoinFour("content", "notes", b.title, b.snippet);
    ConcatAssociates(x, y, z, "::");
    assert |a.title| > |b.title| && a.title[|x|] == ':';
    assert KeyParts(a)[2] == a.title && KeyParts(b)[2] == b.title;
  }
}
