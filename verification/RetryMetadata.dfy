/**
 The comparison between two collections of merge evidence: everything is frozen except the
 metadata that may still be completing, and of that what has settled stays settled.
 */
module RetryMetadata {
  import opened Options

  /** Everything of an entity that has no field of its own in this model. */
  type Facts = string

  datatype Step = Step(number: Option<int>, name: Option<string>, status: Option<string>, conclusion: Option<string>, rest: Facts)

  datatype Job = Job(id: int, rest: Facts, steps: seq<Step>, stepRefresh: Facts)

  datatype Proof = Proof(status: Option<string>, rest: Facts)

  datatype Workflow = Workflow(
    workflowId: int, rest: Facts, pages: Facts,
    sourceProof: Option<Proof>, sourceReceipt: Option<Proof>, jobs: seq<Job>)

  /** A ruleset as read; `neverBypassed` says that the reading principal can never bypass it. */
  datatype Ruleset = Ruleset(id: int, neverBypassed: bool, rest: Facts)

  /** `volatile` holds the collection record, the request log, the pages and the timestamps. */
  datatype Observation = Observation(
    pullRequest: int, baseSha: string, headSha: string, rules: Facts, ruleDetails: seq<Ruleset>, rest: Facts, volatile: Facts,
    workflows: seq<Workflow>, platformGate: Option<Workflow>)

  // ----- what is bound

  function BindJobs(jobs: seq<Job>): seq<Job> {
    if jobs == [] then [] else [jobs[0].(steps := [], stepRefresh := "")] + BindJobs(jobs[1..])
  }

  function BindWorkflow(w: Workflow): Workflow {
    w.(pages := "", sourceProof := None, sourceReceipt := None, jobs := BindJobs(w.jobs))
  }

  function BindWorkflows(ws: seq<Workflow>): seq<Workflow> {
    if ws == [] then [] else [BindWorkflow(ws[0])] + BindWorkflows(ws[1..])
  }

  function RetryBinding(o: Observation): Observation {
    o.(volatile := "", workflows := BindWorkflows(o.workflows),
       platformGate := if o.platformGate.Some? then Some(BindWorkflow(o.platformGate.value)) else None)
  }

  // ----- what may only be completed

  function AllWorkflows(o: Observation): seq<Workflow> {
    o.workflows + if o.platformGate.Some? then [o.platformGate.value] else []
  }

  /** The last workflow with the id, which is the one a dictionary keyed by id holds. */
  function RunOf(ws: seq<Workflow>, id: int): (r: Option<Workflow>)
    ensures r.Some? ==> r.value in ws && r.value.workflowId == id
  {
    if ws == [] then None
    else if ws[|ws| - 1].workflowId == id then Some(ws[|ws| - 1])
    else RunOf(ws[..|ws| - 1], id)
  }

  function JobOf(jobs: seq<Job>, id: int): (r: Option<Job>)
    ensures r.Some? ==> r.value in jobs && r.value.id == id
  {
    if jobs == [] then None else if jobs[0].id == id then Some(jobs[0]) else JobOf(jobs[1..], id)
  }

  function Numbered(steps: seq<Step>, number: Option<int>): (r: seq<Step>)
    ensures forall s :: s in r ==> s in steps && s.number == number
  {
    if steps == [] then []
    else (if steps[0].number == number then [steps[0]] else []) + Numbered(steps[1..], number)
  }

  predicate Terminal(s: Step) {
    s.status == Some("completed") || s.conclusion.Some?
  }

  predicate Settled(p: Option<Proof>) {
    p.Some? && (p.value.status == Some("verified") || p.value.status == Some("platform-managed"))
  }

  predicate StepKept(earlier: Step, current: seq<Step>) {
    var matches := Numbered(current, earlier.number);
    && |matches| == 1 && matches[0].name == earlier.name
    && (Terminal(earlier) ==> matches[0] == earlier)
  }

  predicate JobKept(earlier: Job, current: seq<Job>) {
    var found := JobOf(current, earlier.id);
    found.Some? && forall s :: s in earlier.steps ==> StepKept(s, found.value.steps)
  }

  predicate WorkflowKept(earlier: Workflow, current: seq<Workflow>) {
    var found := RunOf(current, earlier.workflowId);
    && found.Some?
    && (Settled(earlier.sourceProof) ==> earlier.sourceProof == found.value.sourceProof)
    && (Settled(earlier.sourceReceipt) ==> earlier.sourceReceipt == found.value.sourceReceipt)
    && forall j :: j in earlier.jobs ==> JobKept(j, found.value.jobs)
  }

  /** The comparison passes: nothing bound changed and nothing settled changed. */
  predicate Monotone(previous: Observation, current: Observation) {
    && RetryBinding(previous) == RetryBinding(current)
    && forall w :: w in AllWorkflows(previous) ==> WorkflowKept(w, AllWorkflows(current))
  }

  // ----- transitivity, one level at a time

  /** Comparing each collection with the one before is enough: the comparison is transitive. */
  lemma MonotoneTransitive(a: Observation, b: Observation, c: Observation)
    requires Monotone(a, b) && Monotone(b, c)
    ensures Monotone(a, c)
  {
  }

  ghost predicate Chain(seen: seq<Observation>) {
    forall k :: 0 < k < |seen| ==> Monotone(seen[k - 1], seen[k])
  }

  /** However long the chain, each collection is monotone towards every later one. */
  lemma {:induction false} ChainIsMonotone(seen: seq<Observation>, i: nat, j: nat)
    requires Chain(seen) && i < j < |seen|
    ensures Monotone(seen[i], seen[j])
    decreases j
  {
    if i < j - 1 {
      ChainIsMonotone(seen, i, j - 1);
      MonotoneTransitive(seen[i], seen[j - 1], seen[j]);
    }
  }

  // ----- what the comparison protects

  /** The step that a snapshot holds under a workflow, a job and a number. */
  function StepIn(o: Observation, workflowId: int, jobId: int, number: Option<int>): Option<Step> {
    var w := RunOf(AllWorkflows(o), workflowId);
    if w.None? then None
    else
      var j := JobOf(w.value.jobs, jobId);
      if j.None? || |Numbered(j.value.steps, number)| != 1 then None
      else Some(Numbered(j.value.steps, number)[0])
  }

  /** A step that has ended, with whatever conclusion, is found again unchanged in every later collection. */
  lemma EndedStepsSurvive(seen: seq<Observation>, w: Workflow, j: Job, s: Step)
    requires Chain(seen) && |seen| > 1
    requires w in AllWorkflows(seen[0]) && j in w.jobs && s in j.steps
    requires s.status == Some("completed") || s.conclusion.Some?
    ensures StepIn(seen[|seen| - 1], w.workflowId, j.id, s.number) == Some(s)
  {
    ChainIsMonotone(seen, 0, |seen| - 1);
    var last := AllWorkflows(seen[|seen| - 1]);
    assert WorkflowKept(w, last);
    assert JobKept(j, RunOf(last, w.workflowId).value.jobs);
  }

  /** Every step, ended or not, is found again by its number, alone and under its name. */
  lemma StepsKeepTheirNames(seen: seq<Observation>, w: Workflow, j: Job, s: Step)
    requires Chain(seen) && |seen| > 1
    requires w in AllWorkflows(seen[0]) && j in w.jobs && s in j.steps
    ensures
      var found := StepIn(seen[|seen| - 1], w.workflowId, j.id, s.number);
      found.Some? && found.value.number == s.number && found.value.name == s.name
  {
    ChainIsMonotone(seen, 0, |seen| - 1);
    var last := AllWorkflows(seen[|seen| - 1]);
    assert WorkflowKept(w, last);
    assert JobKept(j, RunOf(last, w.workflowId).value.jobs);
  }

  /** Verified, or managed by the platform. */
  predicate IsFinal(p: Option<Proof>) {
    p.Some? && p.value.status in {Some("verified"), Some("platform-managed")}
  }

  /** So does a proof or receipt once it is verified or managed by the platform. */
  lemma SettledProofsSurvive(seen: seq<Observation>, w: Workflow)
    requires Chain(seen) && |seen| > 1 && w in AllWorkflows(seen[0])
    ensures RunOf(AllWorkflows(seen[|seen| - 1]), w.workflowId).Some?
    ensures IsFinal(w.sourceProof) ==> RunOf(AllWorkflows(seen[|seen| - 1]), w.workflowId).value.sourceProof == w.sourceProof
    ensures IsFinal(w.sourceReceipt) ==> RunOf(AllWorkflows(seen[|seen| - 1]), w.workflowId).value.sourceReceipt == w.sourceReceipt
  {
    ChainIsMonotone(seen, 0, |seen| - 1);
    assert WorkflowKept(w, AllWorkflows(seen[|seen| - 1]));
  }

  // ----- what the comparison allows

  /** Each workflow, job and step is told apart by its id or number. */
  ghost predicate WellFormed(o: Observation) {
    var ws := AllWorkflows(o);
    && (forall i, j :: 0 <= i < j < |ws| ==> ws[i].workflowId != ws[j].workflowId)
    && forall w :: w in ws ==> DistinctJobs(w.jobs)
  }

  ghost predicate DistinctJobs(jobs: seq<Job>) {
    && (forall i, j :: 0 <= i < j < |jobs| ==> jobs[i].id != jobs[j].id)
    && forall j :: j in jobs ==> DistinctSteps(j.steps)
  }

  ghost predicate DistinctSteps(steps: seq<Step>) {
    forall i, j :: 0 <= i < j < |steps| ==> steps[i].number != steps[j].number
  }

  lemma {:induction false} FindsRun(ws: seq<Workflow>, w: Workflow)
    requires w in ws && forall i, j :: 0 <= i < j < |ws| ==> ws[i].workflowId != ws[j].workflowId
    ensures RunOf(ws, w.workflowId) == Some(w)
  {
    var front, last := ws[..|ws| - 1], ws[|ws| - 1];
    if w != last {
      assert w in front;
      FindsRun(front, w);
    }
  }

  lemma {:induction false} FindsJob(jobs: seq<Job>, j: Job)
    requires j in jobs && forall i, k :: 0 <= i < k < |jobs| ==> jobs[i].id != jobs[k].id
    ensures JobOf(jobs, j.id) == Some(j)
  {
    if j != jobs[0] {
      assert j in jobs[1..];
      FindsJob(jobs[1..], j);
    }
  }

  lemma {:induction false} NoneNumbered(steps: seq<Step>, number: Option<int>)
    requires forall s :: s in steps ==> s.number != number
    ensures Numbered(steps, number) == []
  {
    if steps != [] {
      NoneNumbered(steps[1..], number);
    }
  }

  lemma {:induction false} FindsStep(steps: seq<Step>, s: Step)
    requires s in steps && DistinctSteps(steps)
    ensures Numbered(steps, s.number) == [s]
  {
    if s == steps[0] {
      NoneNumbered(steps[1..], s.number);
    } else {
      assert s in steps[1..];
      FindsStep(steps[1..], s);
    }
  }

  /** A collection that differs only in what is volatile passes the comparison. */
  lemma SameIsMonotone(o: Observation, volatile: Facts)
    requires WellFormed(o)
    ensures Monotone(o, o.(volatile := volatile))
  {
    var ws := AllWorkflows(o);
    forall w | w in ws ensures WorkflowKept(w, ws) {
      FindsRun(ws, w);
      forall j | j in w.jobs ensures JobKept(j, w.jobs) {
        FindsJob(w.jobs, j);
        forall s | s in j.steps ensures StepKept(s, j.steps) {
          FindsStep(j.steps, s);
        }
      }
    }
  }

  /** The facts of a workflow that are bound, job by job. */
  predicate SameBound(a: Workflow, b: Workflow) {
    && a.workflowId == b.workflowId && a.rest == b.rest && |a.jobs| == |b.jobs|
    && forall i :: 0 <= i < |a.jobs| ==> a.jobs[i].id == b.jobs[i].id && a.jobs[i].rest == b.jobs[i].rest
  }

  lemma SameBinding(a: Workflow, b: Workflow)
    requires BindWorkflow(a) == BindWorkflow(b)
    ensures SameBound(a, b)
  {
    BoundJobsLength(a.jobs);
    BoundJobsLength(b.jobs);
    forall i | 0 <= i < |a.jobs| ensures a.jobs[i].id == b.jobs[i].id && a.jobs[i].rest == b.jobs[i].rest {
      BoundJobAt(a.jobs, i);
      BoundJobAt(b.jobs, i);
    }
  }

  /** The bound facts of the first collection are those of the last: its own, every workflow's and the platform gate's. */
  lemma BoundFactsSurvive(seen: seq<Observation>)
    requires Chain(seen) && |seen| > 1
    ensures
      var first, last := seen[0], seen[|seen| - 1];
      && first.rest == last.rest && first.pullRequest == last.pullRequest
      && first.baseSha == last.baseSha && first.headSha == last.headSha
      && first.rules == last.rules && first.ruleDetails == last.ruleDetails
      && |last.workflows| == |first.workflows|
      && (forall k :: 0 <= k < |first.workflows| ==> SameBound(first.workflows[k], last.workflows[k]))
      && (first.platformGate.Some? <==> last.platformGate.Some?)
      && (first.platformGate.Some? ==> SameBound(first.platformGate.value, last.platformGate.value))
  {
    var first, last := seen[0], seen[|seen| - 1];
    ChainIsMonotone(seen, 0, |seen| - 1);
    BoundLength(first.workflows);
    BoundLength(last.workflows);
    forall k | 0 <= k < |first.workflows| ensures SameBound(first.workflows[k], last.workflows[k]) {
      BoundWorkflowAt(first.workflows, k);
      BoundWorkflowAt(last.workflows, k);
      SameBinding(first.workflows[k], last.workflows[k]);
    }
    if first.platformGate.Some? && last.platformGate.Some? {
      SameBinding(first.platformGate.value, last.platformGate.value);
    }
  }

  lemma {:induction false} BoundLength(ws: seq<Workflow>)
    ensures |BindWorkflows(ws)| == |ws|
  {
    if ws != [] { BoundLength(ws[1..]); }
  }

  lemma {:induction false} BoundWorkflowAt(ws: seq<Workflow>, k: nat)
    requires k < |ws|
    ensures |BindWorkflows(ws)| == |ws| && BindWorkflows(ws)[k] == BindWorkflow(ws[k])
  {
    BoundLength(ws);
    if k > 0 { BoundWorkflowAt(ws[1..], k - 1); }
  }

  lemma {:induction false} BoundJobsLength(jobs: seq<Job>)
    ensures |BindJobs(jobs)| == |jobs|
  {
    if jobs != [] { BoundJobsLength(jobs[1..]); }
  }

  lemma {:induction false} BoundJobAt(jobs: seq<Job>, k: nat)
    requires k < |jobs|
    ensures |BindJobs(jobs)| == |jobs| && BindJobs(jobs)[k] == jobs[k].(steps := [], stepRefresh := "")
  {
    BoundJobsLength(jobs);
    if k > 0 { BoundJobAt(jobs[1..], k - 1); }
  }
}
