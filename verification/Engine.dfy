/** `delta/execute.py`: the engine runs the ready steps of a workflow, reusing persisted results by
    signature and persisting attempt ownership around every executor call.

    `After` is the run as a function of the store's state; `DeltaEngine.Execute` is the loop that updates the
    store in place, proved to compute it. */
module Engine {
  import opened Options
  import opened Json
  import opened Topology
  import opened Types
  import opened Core
  import opened Store
  import opened Planning

  /** One run.  Executors are a partial function of implementation and input, `fails` are the steps whose
      executor call raises in this run although it has a value, `newId` is the identifier drawn for an attempt. */
  datatype Job = Job(
    q: Query,
    principal: Option<Principal>,
    compute: (string, Value) -> Option<Value>,
    fails: set<string>,
    newId: string -> string)

  datatype Progress = Progress(
    client: Client,
    outputs: map<string, Value>,
    failed: set<string>,
    blocked: set<string>,
    decisions: seq<StepDecision>,
    attempts: seq<Attempt>)

  predicate ActiveStatus(s: Status) {
    s in {Planned, Submitting, Active, AwaitingProvider, Ambiguous, ReconciliationRequired}
  }

  /** The attempt that the step's head names, when it is active and asks for this signature. */
  function ActiveAttempt(c: Client, scope: Scope, stepId: string, signature: Signature): Option<Attempt> {
    match Head(c, scope, stepId)
    case None => None
    case Some(id) =>
      match GetAttempt(c, scope, id)
      case None => None
      case Some(a) => if a.inputSignature == signature && ActiveStatus(a.status) then Some(a) else None
  }

  function NewAttempt(job: Job, step: Step, signature: Signature): Attempt {
    Attempt(job.newId(step.id), job.q.scope, job.q.w.id, step.id, Active, signature,
      None, None, None, None, None, None, None)
  }

  function ProvenanceFor(step: Step, principal: Option<Principal>): Option<Provenance> {
    match (principal, step.declaration)
    case (Some(p), Some(d)) => Some(Provenance(p.agentId, p.sessionId, p.providerId, d.category, d.exposure, None))
    case _ => None
  }

  function FreshUntil(step: Step, completedAt: int): Option<int> {
    match step.ttl
    case Some(t) => Some(completedAt + t)
    case None => None
  }

  function ResultOf(job: Job, step: Step, signature: Signature, output: Value): WorkResult {
    WorkResult(job.q.scope, job.q.w.id, step.id, step.implementationId, signature, OutputSignature(output), output,
      job.q.now, FreshUntil(step, job.q.now), Some(job.newId(step.id)), None, ProvenanceFor(step, job.principal))
  }

  /** The executor's answer in this run; `None` is a raised exception. */
  function Executed(job: Job, step: Step, input: Value): Option<Value> {
    if step.id in job.fails then None else job.compute(step.implementationId, input)
  }

  function Begin(c: Client, a: Attempt): Client {
    SetHead(Put(c, AttemptRecord(a)), a.scope, a.stepId, Some(a.attemptId))
  }

  function Finish(c: Client, a: Attempt): Client {
    SetHead(Put(c, AttemptRecord(a)), a.scope, a.stepId, None)
  }

  function Decided(p: Progress, d: StepDecision): Progress {
    p.(decisions := p.decisions + [d])
  }

  function RunStep(job: Job, p: Progress, step: Step, input: Value, signature: Signature): Progress {
    var attempt := NewAttempt(job, step, signature);
    var begun := Begin(p.client, attempt);
    match Executed(job, step, input)
    case Some(output) =>
      var done := attempt.(status := Succeeded);
      Decided(
        p.(client := Finish(Put(begun, Work(ResultOf(job, step, signature, output))), done),
           outputs := p.outputs[step.id := output],
           attempts := p.attempts + [done]),
        StepDecision(step.id, Rerun, "EXECUTED_SUCCESSFULLY", Some(input), Some(signature), step.cost))
    case None =>
      var done := attempt.(status := Failed, errorCode := Some("EXECUTOR_FAILED"));
      Decided(
        p.(client := Finish(begun, done), failed := p.failed + {step.id}, attempts := p.attempts + [done]),
        StepDecision(step.id, Rerun, "EXECUTION_FAILED", Some(input), Some(signature), step.cost))
  }

  function BlockStep(p: Progress, step: Step, reason: string, input: Value, signature: Signature): Progress {
    Decided(p.(blocked := p.blocked + {step.id}),
      StepDecision(step.id, Blocked, reason, Some(input), Some(signature), step.cost))
  }

  function WaitStep(p: Progress, step: Step): Progress {
    var stopped := DependencySet(step) * (p.failed + p.blocked) != {};
    Decided(p.(blocked := p.blocked + {step.id}),
      StepDecision(step.id,
        if stopped then Blocked else PendingDependency,
        if stopped then "DEPENDENCY_FAILED" else "DEPENDENCY_OUTPUT_UNKNOWN",
        None, None, step.cost))
  }

  function ReuseStep(p: Progress, step: Step, r: WorkResult, input: Value, signature: Signature): Progress {
    Decided(p.(outputs := p.outputs[step.id := r.output]),
      StepDecision(step.id, Reuse, "MATCHING_RESULT", Some(input), Some(signature), None))
  }

  function ExecuteStep(job: Job, p: Progress, step: Step): Progress {
    match StepInput(step, job.q.inputs, p.outputs)
    case None => WaitStep(p, step)
    case Some(input) =>
      var signature := SignatureFor(job.q, step, input);
      match Reusable(p.client, job.q.scope, job.q, step, signature)
      case Some(r) => ReuseStep(p, step, r, input, signature)
      case None =>
        if ActiveAttempt(p.client, job.q.scope, step.id, signature).Some? then
          BlockStep(p, step, "ACTIVE_ATTEMPT_EXISTS", input, signature)
        else if !step.executable then
          BlockStep(p, step, "EXECUTOR_UNAVAILABLE", input, signature)
        else
          RunStep(job, p, step, input, signature)
  }

  /** The run after the first `k` steps, starting from client state `c`. */
  function After(job: Job, c: Client, k: nat): Progress
    requires k <= |job.q.steps|
  {
    if k == 0 then Progress(c, map[], {}, {}, [], [])
    else ExecuteStep(job, After(job, c, k - 1), job.q.steps[k - 1])
  }

  /** Before the loop, the preview is persisted as the plan. */
  function WithPlan(c: Client, q: Query): Client {
    Put(c, PlanRecord(PlanOf(q, LookupPreview(c, q, |q.steps|).decisions)))
  }

  function Complete(job: Job, c: Client): Progress {
    After(job, WithPlan(c, job.q), |job.q.steps|)
  }

  /** The step's own record does not decode, so the lookup raises. */
  predicate Raises(job: Job, p: Progress, step: Step) {
    match StepInput(step, job.q.inputs, p.outputs)
    case None => false
    case Some(input) => Unreadable(p.client, job.q.scope, job.q.w.id, step.id, SignatureFor(job.q, step, input))
  }

  /** The run raises at its k-th step, and not before. */
  ghost predicate RaisesAt(job: Job, c: Client, k: nat) {
    && k < |job.q.steps| && Raises(job, After(job, c, k), job.q.steps[k])
    && RunsTo(job, c, k)
  }

  /** The run gets through its first `k` steps. */
  ghost predicate RunsTo(job: Job, c: Client, k: nat)
    requires k <= |job.q.steps|
  {
    forall j :: 0 <= j < k ==> !Raises(job, After(job, c, j), job.q.steps[j])
  }

  ghost predicate RunsThrough(job: Job, c: Client) {
    RunsTo(job, WithPlan(c, job.q), |job.q.steps|)
  }

  // ----- cost -----------------------------------------------------------------------------

  function Amount(d: StepDecision): Option<nat> {
    match d.cost
    case Some(cost) => cost.amount
    case None => None
  }

  function Reruns(decisions: seq<StepDecision>): seq<StepDecision> {
    if decisions == [] then []
    else
      var rest := Reruns(decisions[..|decisions| - 1]);
      var last := decisions[|decisions| - 1];
      if last.decision == Rerun then rest + [last] else rest
  }

  function Total(decisions: seq<StepDecision>): nat
    requires forall i :: 0 <= i < |decisions| ==> Amount(decisions[i]).Some?
  {
    if decisions == [] then 0
    else
      assert Amount(decisions[|decisions| - 1]).Some?;
      Total(decisions[..|decisions| - 1]) + Amount(decisions[|decisions| - 1]).value
  }

  /** The estimated cost of what ran; `None` is `"unknown"`. */
  function CostSummary(decisions: seq<StepDecision>): Option<nat> {
    var reruns := Reruns(decisions);
    if forall i :: 0 <= i < |reruns| ==> Amount(reruns[i]).Some? then Some(Total(reruns)) else None
  }

  // ----- the engine -----------------------------------------------------------------------

  datatype Report = Report(
    scope: Scope,
    workflowId: string,
    decisions: seq<StepDecision>,
    attempts: seq<Attempt>,
    outputs: map<string, Value>,
    cost: Option<nat>)

  function ReportOf(q: Query, p: Progress): Report {
    Report(q.scope, q.w.id, p.decisions, p.attempts, p.outputs, CostSummary(p.decisions))
  }

  /** What one turn of the loop adds to the run. */
  ghost predicate TurnOf(job: Job, p: Progress, step: Step, c: Client, decision: StepDecision, output: Option<Value>,
    failed: bool, attempt: Option<Attempt>)
  {
    ExecuteStep(job, p, step) == Progress(c,
      if output.Some? then p.outputs[step.id := output.value] else p.outputs,
      if output.None? && failed then p.failed + {step.id} else p.failed,
      if output.None? && !failed then p.blocked + {step.id} else p.blocked,
      p.decisions + [decision],
      if attempt.Some? then p.attempts + [attempt.value] else p.attempts)
  }

  class DeltaEngine {
    const store: SibylStore
    const principal: Option<Principal>

    constructor (store: SibylStore, principal: Option<Principal>)
      ensures this.store == store && this.principal == principal
    {
      this.store := store;
      this.principal := principal;
    }

    /** The preview of the persisted work.  For a request of another project it is the preview of an empty store: the
        store lists its own project's results, and none of them matches. */
    method Preview(request: Request, now: int) returns (plan: Option<RevisionPlan>)
      requires Consistent(store.State())
      ensures plan.Some? <==> Accepted(request)
      ensures plan.Some? ==> plan.value.scope == request.scope
      ensures plan.Some? && request.scope == store.scope ==>
        var q := QueryOf(request, now);
        plan.value == PlanOf(q, LookupPreview(store.State(), q, |q.steps|).decisions)
      ensures plan.Some? && request.scope != store.scope ==>
        var q := QueryOf(request, now);
        && plan.value == PlanOf(q, PreviewAfter(q, [], |q.steps|).decisions)
        && forall i :: 0 <= i < |plan.value.decisions| ==> plan.value.decisions[i].decision != Reuse
      ensures plan.Some? ==>
        var offers := if request.scope == store.scope then Kept(store.State()) else iset{};
        Foretold(QueryOf(request, now), offers, plan.value.decisions)
    {
      hide PreviewAfter, Consistent, Foretold, Kept, Represents, PlanPayload, Print;
      var results, damaged := store.ListWorkRecords(request.workflow.id);
      plan := BuildRevisionPlan(request, results, now);
      if plan.Some? {
        var q := QueryOf(request, now);
        if request.scope == store.scope {
          PreviewIgnoresListingOrder(store.State(), q, results, |q.steps|);
          ListingRepresents(store.State(), q, results);
          RequestIsForetold(request, now, Kept(store.State()), results);
        } else {
          ForeignRepresent(q, results);
          RequestIsForetold(request, now, iset{}, results);
          ForeignResultsAreIgnored(q, results, |q.steps|);
        }
      }
    }

    /** Take ownership of the step unless an active attempt already has it. */
    method StartAttempt(attempt: Attempt) returns (started: bool)
      requires attempt.scope == store.scope
      modifies store.client
      ensures started <==> ActiveAttempt(old(store.State()), store.scope, attempt.stepId, attempt.inputSignature).None?
      ensures store.State() == if started then Begin(old(store.State()), attempt) else old(store.State())
    {
      if ActiveAttempt(store.State(), store.scope, attempt.stepId, attempt.inputSignature).Some? {
        return false;
      }
      var saved := store.Save(AttemptRecord(attempt));
      store.SetActiveAttempt(attempt.stepId, Some(attempt.attemptId));
      return true;
    }

    /** Persist how an attempt ended and release the head. */
    method EndAttempt(attempt: Attempt)
      requires attempt.scope == store.scope
      modifies store.client
      ensures store.State() == Finish(old(store.State()), attempt)
    {
      var saved := store.Save(AttemptRecord(attempt));
      store.SetActiveAttempt(attempt.stepId, None);
    }

    /** Own the step, call the executor, persist its outcome and release the step; `None` when another attempt
        owns it. */
    method Attempted(job: Job, ghost p: Progress, step: Step, input: Value, signature: Signature)
      returns (attempt: Option<Attempt>, output: Option<Value>)
      requires job.q.scope == store.scope && p.client == store.State()
      modifies store.client
      ensures attempt.None? <==> ActiveAttempt(old(store.State()), store.scope, step.id, signature).Some?
      ensures attempt.None? ==> store.State() == old(store.State())
      ensures attempt.Some? ==>
        var after := RunStep(job, p, step, input, signature);
        && output == Executed(job, step, input)
        && after.client == store.State()
        && after.attempts == p.attempts + [attempt.value]
    {
      var running := NewAttempt(job, step, signature);
      var started := StartAttempt(running);
      if !started {
        return None, None;
      }
      output := Executed(job, step, input);
      match output {
        case Some(value) =>
          var kept := store.Save(Work(ResultOf(job, step, signature, value)));
          attempt := Some(running.(status := Succeeded));
        case None =>
          attempt := Some(running.(status := Failed, errorCode := Some("EXECUTOR_FAILED")));
      }
      EndAttempt(attempt.value);
    }

    /** `None` stands for an exception: an invalid request, a foreign scope, or a record that does not decode.  The
        last leaves behind what the steps before it wrote. */
    method Execute(request: Request, now: int, compute: (string, Value) -> Option<Value>, fails: set<string>,
      newId: string -> string) returns (report: Option<Report>)
      requires Consistent(store.State())
      modifies store.client
      ensures !Accepted(request) || request.scope != store.scope ==>
        report.None? && store.State() == old(store.State())
      ensures Accepted(request) && request.scope == store.scope ==>
        var job := Job(QueryOf(request, now), principal, compute, fails, newId);
        && (report.Some? <==> RunsThrough(job, old(store.State())))
        && (report.Some? ==>
          && store.State() == Complete(job, old(store.State())).client
          && report.value == ReportOf(job.q, Complete(job, old(store.State())))
          && (report.value.scope, report.value.workflowId) == (request.scope, request.workflow.id)
          && report.value.decisions == Complete(job, old(store.State())).decisions
          && report.value.attempts == Complete(job, old(store.State())).attempts
          && report.value.outputs == Complete(job, old(store.State())).outputs
          && report.value.cost == CostSummary(report.value.decisions))
        && (report.None? ==> exists k: nat ::
          && RaisesAt(job, WithPlan(old(store.State()), job.q), k)
          && store.State() == After(job, WithPlan(old(store.State()), job.q), k).client)
    {
      hide After, RunsTo, Raises, CostSummary, PreviewAfter, LookupPreview, Accepted, QueryOf;
      var plan := Preview(request, now);
      if plan.None? || plan.value.scope != store.scope {
        return None;
      }
      var job := Job(QueryOf(request, now), principal, compute, fails, newId);
      var saved := store.Save(PlanRecord(plan.value));
      var progress := Loop(job);
      QueryNames(request, now);
      return if progress.Some? then Some(ReportOf(job.q, progress.value)) else None;
    }

    /** One turn of the loop: how the step ends, and the attempt it made. */
    method Turn(job: Job, ghost p: Progress, step: Step, outputs: map<string, Value>, stopped: set<string>)
      returns (raised: bool, decision: StepDecision, output: Option<Value>, failed: bool, attempt: Option<Attempt>)
      requires job.q.scope == store.scope && p.client == store.State()
      requires p.outputs == outputs && p.failed + p.blocked == stopped
      modifies store.client
      ensures raised == Raises(job, p, step)
      ensures raised ==> store.State() == old(store.State())
      ensures !raised ==> TurnOf(job, p, step, store.State(), decision, output, failed, attempt)
    {
      hide StepInput, SignatureFor, DependencySet, Usable, ActiveAttempt, Begin, Finish, Put, NewAttempt, ResultOf;
      raised, output, failed, attempt := false, None, false, None;
      var resolved := StepInput(step, job.q.inputs, outputs);
      if resolved.None? {
        var blocked := DependencySet(step) * stopped != {};
        decision := StepDecision(step.id,
          if blocked then Blocked else PendingDependency,
          if blocked then "DEPENDENCY_FAILED" else "DEPENDENCY_OUTPUT_UNKNOWN",
          None, None, step.cost);
        return;
      }
      var input := resolved.value;
      var signature := SignatureFor(job.q, step, input);
      var reusable, unreadable := store.GetWorkResult(job.q.w.id, step.id, signature);
      if unreadable {
        return true, StepDecision(step.id, Blocked, "", None, None, None), None, false, None;
      }
      if reusable.Some? && Usable(job.q, step, signature, reusable.value) {
        output := Some(reusable.value.output);
        decision := StepDecision(step.id, Reuse, "MATCHING_RESULT", Some(input), Some(signature), None);
        return;
      }
      if ActiveAttempt(store.State(), store.scope, step.id, signature).None? && !step.executable {
        decision := StepDecision(step.id, Blocked, "EXECUTOR_UNAVAILABLE", Some(input), Some(signature), step.cost);
        return;
      }
      attempt, output := Attempted(job, p, step, input, signature);
      if attempt.None? {
        output := None;
        decision := StepDecision(step.id, Blocked, "ACTIVE_ATTEMPT_EXISTS", Some(input), Some(signature), step.cost);
      } else if output.Some? {
        decision := StepDecision(step.id, Rerun, "EXECUTED_SUCCESSFULLY", Some(input), Some(signature), step.cost);
      } else {
        failed := true;
        decision := StepDecision(step.id, Rerun, "EXECUTION_FAILED", Some(input), Some(signature), step.cost);
      }
    }

    method Loop(job: Job) returns (progress: Option<Progress>)
      requires job.q.scope == store.scope
      modifies store.client
      ensures progress.Some? <==> RunsTo(job, old(store.State()), |job.q.steps|)
      ensures progress.Some? ==>
        progress.value == After(job, old(store.State()), |job.q.steps|) && progress.value.client == store.State()
      ensures progress.None? ==> exists k: nat ::
        RaisesAt(job, old(store.State()), k) && store.State() == After(job, old(store.State()), k).client
    {
      hide ExecuteStep, Raises;
      ghost var start := store.State();
      var outputs: map<string, Value> := map[];
      var failed: set<string>, blocked: set<string> := {}, {};
      var decisions: seq<StepDecision>, attempts: seq<Attempt> := [], [];
      for i := 0 to |job.q.steps|
        invariant Progress(store.State(), outputs, failed, blocked, decisions, attempts) == After(job, start, i)
        invariant RunsTo(job, start, i)
      {
        var step := job.q.steps[i];
        var raised, decision, output, fails, attempt :=
          Turn(job, After(job, start, i), step, outputs, failed + blocked);
        if raised {
          assert RaisesAt(job, start, i);
          return None;
        }
        decisions := decisions + [decision];
        if attempt.Some? {
          attempts := attempts + [attempt.value];
        }
        if output.Some? {
          outputs := outputs[step.id := output.value];
        } else if fails {
          failed := failed + {step.id};
        } else {
          blocked := blocked + {step.id};
        }
      }
      return Some(Progress(store.State(), outputs, failed, blocked, decisions, attempts));
    }
  }
}
