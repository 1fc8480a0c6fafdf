/** What every decision of a run rests on and leaves behind, in terms of the store, the executors and the request. */
module RunMeaning {
  import opened Options
  import opened Json
  import opened Types
  import opened Core
  import opened Store
  import opened Planning
  import opened Engine
  import opened EngineLaws
  import opened ReuseLaws

  /** The step's head names an attempt under this signature that is not over. */
  ghost predicate IsHeld(c: Client, scope: Scope, stepId: string, signature: Signature) {
    exists id, a :: Slot(scope, stepId) in c.heads && c.heads[Slot(scope, stepId)] == Some(id)
      && AttemptKey(scope, id) in c.entities && c.entities[AttemptKey(scope, id)] == AttemptRecord(a)
      && a.inputSignature == signature
      && a.status in {Planned, Submitting, Active, AwaitingProvider, Ambiguous, ReconciliationRequired}
  }

  /** The executor answers in this run: it is configured, does not raise and has a value. */
  predicate Answers(job: Job, step: Step, input: Value) {
    step.executable && step.id !in job.fails && job.compute(step.implementationId, input).Some?
  }

  /** The record of a successful executor call. */
  ghost predicate RecordTells(job: Job, step: Step, signature: Signature, r: WorkResult) {
    && (r.scope, r.workflowId, r.stepId, r.implementationId)
      == (job.q.scope, job.q.w.id, step.id, step.implementationId)
    && r.inputSignature == signature && r.outputSignature == OutputSignature(r.output)
    && r.completedAt == job.q.now
    && r.freshUntil == (match step.ttl case None => None case Some(ttl) => Some(job.q.now + ttl))
    && r.attemptId == Some(job.newId(step.id)) && r.artifact == None
    && (r.provenance.Some? <==> job.principal.Some? && step.declaration.Some?)
    && (r.provenance.Some? ==>
        && Principal(r.provenance.value.agentId, r.provenance.value.sessionId, r.provenance.value.providerId)
          == job.principal.value
        && Declaration(r.provenance.value.category, r.provenance.value.exposure) == step.declaration.value
        && r.provenance.value.job == None)
  }

  /** What a run decides about a step whose input is known, when the client is `c`. */
  ghost predicate DecidedOn(job: Job, c: Client, step: Step, input: Value, signature: Signature, d: StepDecision) {
    if exists r :: Offered(job.q, step, signature, Kept(c), r) then
      (d.decision, d.reason, d.cost) == (Reuse, "MATCHING_RESULT", None)
    else if IsHeld(c, job.q.scope, step.id, signature) then
      (d.decision, d.reason, d.cost) == (Blocked, "ACTIVE_ATTEMPT_EXISTS", step.cost)
    else if !step.executable then (d.decision, d.reason, d.cost) == (Blocked, "EXECUTOR_UNAVAILABLE", step.cost)
    else if Answers(job, step, input) then
      (d.decision, d.reason, d.cost) == (Rerun, "EXECUTED_SUCCESSFULLY", step.cost)
    else (d.decision, d.reason, d.cost) == (Rerun, "EXECUTION_FAILED", step.cost)
  }

  lemma HeldExactly(c: Client, scope: Scope, stepId: string, signature: Signature)
    ensures ActiveAttempt(c, scope, stepId, signature).Some? <==> IsHeld(c, scope, stepId, signature)
  {
    if ActiveAttempt(c, scope, stepId, signature).Some? {
      var id := Head(c, scope, stepId).value;
      assert c.entities[AttemptKey(scope, id)] == AttemptRecord(GetAttempt(c, scope, id).value);
    }
  }

  /** A lookup finds what is offered. */
  lemma ReusableIsOffered(c: Client, q: Query, step: Step, signature: Signature)
    ensures match Reusable(c, q.scope, q, step, signature)
      case Some(r) => Offered(q, step, signature, Kept(c), r)
      case None => forall r :: !Offered(q, step, signature, Kept(c), r)
  {
  }

  /** The attempt of an executor call that ended so. */
  predicate AttemptTells(job: Job, step: Step, signature: Signature, a: Attempt, succeeded: bool) {
    && (a.attemptId, a.scope, a.workflowId, a.stepId)
      == (job.newId(step.id), job.q.scope, job.q.w.id, step.id)
    && a.inputSignature == signature
    && (a.status, a.errorCode) == (if succeeded then (Succeeded, None) else (Status.Failed, Some("EXECUTOR_FAILED")))
    && (a.jobId, a.chainId, a.providerId) == (None, None, None)
    && (a.offeringId, a.offeringName, a.requirements) == (None, None, None)
  }

  /** The executor's value is the output and the record; the attempt has succeeded; the head is clear. */
  ghost predicate LeftBySuccess(job: Job, p: Progress, p': Progress, step: Step, input: Value, signature: Signature) {
    exists r: WorkResult, a: Attempt ::
      && job.compute(step.implementationId, input) == Some(r.output) && RecordTells(job, step, signature, r)
      && AttemptTells(job, step, signature, a, true)
      && p'.outputs == p.outputs[step.id := r.output] && p'.attempts == p.attempts + [a]
      && p'.client.entities == p.client.entities[WorkKey(job.q.scope, job.q.w.id, step.id, signature) := Work(r)]
           [AttemptKey(job.q.scope, job.newId(step.id)) := AttemptRecord(a)]
      && p'.client.heads == p.client.heads[Slot(job.q.scope, step.id) := None]
  }

  /** There is no output and no record; the attempt has failed; the head is clear. */
  ghost predicate LeftByFailure(job: Job, p: Progress, p': Progress, step: Step, signature: Signature) {
    exists a: Attempt ::
      && AttemptTells(job, step, signature, a, false)
      && p'.outputs == p.outputs && p'.attempts == p.attempts + [a]
      && p'.client.entities == p.client.entities[AttemptKey(job.q.scope, job.newId(step.id)) := AttemptRecord(a)]
      && p'.client.heads == p.client.heads[Slot(job.q.scope, step.id) := None]
  }

  /** What a decision leaves; of a reuse it is the output of a record on offer, of a step that is not run nothing. */
  ghost predicate Leaves(job: Job, p: Progress, p': Progress, step: Step, input: Value, signature: Signature,
    d: StepDecision)
  {
    if d.reason == "EXECUTED_SUCCESSFULLY" then LeftBySuccess(job, p, p', step, input, signature)
    else if d.reason == "EXECUTION_FAILED" then LeftByFailure(job, p, p', step, signature)
    else
      && p'.client == p.client && p'.attempts == p.attempts
      && if d.decision == Reuse then
           exists r ::
             Offered(job.q, step, signature, Kept(p.client), r) && p'.outputs == p.outputs[step.id := r.output]
         else p'.outputs == p.outputs
  }

  lemma ResultTells(job: Job, step: Step, signature: Signature, output: Value)
    ensures RecordTells(job, step, signature, ResultOf(job, step, signature, output))
    ensures ResultOf(job, step, signature, output).output == output
    ensures KeyOf(Work(ResultOf(job, step, signature, output)))
      == WorkKey(job.q.scope, job.q.w.id, step.id, signature)
  {
    hide OutputSignature;
  }

  lemma SuccessLeaves(job: Job, p: Progress, step: Step, input: Value, signature: Signature)
    requires Executed(job, step, input).Some?
    ensures LeftBySuccess(job, p, RunStep(job, p, step, input, signature), step, input, signature)
  {
    hide ResultOf, RecordTells;
    var p', output := RunStep(job, p, step, input, signature), Executed(job, step, input).value;
    var slot, h := Slot(job.q.scope, step.id), p.client.heads;
    var r, a := ResultOf(job, step, signature, output), NewAttempt(job, step, signature).(status := Succeeded);
    ResultTells(job, step, signature, output);
    assert h[slot := Some(job.newId(step.id))][slot := None] == h[slot := None];
    assert p'.client.entities == p.client.entities[KeyOf(Work(r)) := Work(r)]
      [AttemptKey(job.q.scope, job.newId(step.id)) := AttemptRecord(a)];
  }

  lemma FailureLeaves(job: Job, p: Progress, step: Step, input: Value, signature: Signature)
    requires Executed(job, step, input).None?
    ensures LeftByFailure(job, p, RunStep(job, p, step, input, signature), step, signature)
  {
    var p', slot, h := RunStep(job, p, step, input, signature), Slot(job.q.scope, step.id), p.client.heads;
    var a := NewAttempt(job, step, signature).(status := Status.Failed, errorCode := Some("EXECUTOR_FAILED"));
    assert h[slot := Some(job.newId(step.id))][slot := None] == h[slot := None];
    assert p'.client.entities
      == p.client.entities[AttemptKey(job.q.scope, job.newId(step.id)) := AttemptRecord(a)];
  }

  lemma CallDecides(job: Job, p: Progress, step: Step, input: Value, signature: Signature)
    ensures var p' := RunStep(job, p, step, input, signature);
      && |p'.decisions| == |p.decisions| + 1
      && p'.decisions[|p.decisions|] == StepDecision(step.id, Rerun,
           if Executed(job, step, input).Some? then "EXECUTED_SUCCESSFULLY" else "EXECUTION_FAILED",
           Some(input), Some(signature), step.cost)
  {
    hide Executed, ResultOf, NewAttempt, Begin, Finish, Put;
  }

  /** A step whose input is known is decided on the store as it is, and leaves what its decision says. */
  lemma StepIsDue(job: Job, p: Progress, step: Step, input: Value)
    requires StepInput(step, job.q.inputs, p.outputs) == Some(input)
    ensures var p', signature := ExecuteStep(job, p, step), SignatureFor(job.q, step, input);
      && |p'.decisions| == |p.decisions| + 1
      && DecidedOn(job, p.client, step, input, signature, p'.decisions[|p.decisions|])
      && Leaves(job, p, p', step, input, signature, p'.decisions[|p.decisions|])
  {
    hide StepInput, SignatureFor, RunStep, Reusable, Offered, Kept, IsHeld, ActiveAttempt, LeftBySuccess, LeftByFailure;
    var signature := SignatureFor(job.q, step, input);
    ReusableIsOffered(p.client, job.q, step, signature);
    HeldExactly(p.client, job.q.scope, step.id, signature);
    CallDecides(job, p, step, input, signature);
    if Executed(job, step, input).Some? {
      SuccessLeaves(job, p, step, input, signature);
    } else {
      FailureLeaves(job, p, step, input, signature);
    }
  }

  /** Without an input: blocked when a dependency ended without an output, else waiting for an input not supplied. */
  ghost predicate WaitsAs(step: Step, outputs: map<string, Value>, d: StepDecision) {
    d == if DependencySet(step) <= outputs.Keys
      then StepDecision(step.id, PendingDependency, "DEPENDENCY_OUTPUT_UNKNOWN", None, None, step.cost)
      else StepDecision(step.id, Blocked, "DEPENDENCY_FAILED", None, None, step.cost)
  }

  lemma WaitIsDue(job: Job, p: Progress, step: Step, done: set<string>)
    requires StepInput(step, job.q.inputs, p.outputs).None?
    requires p.outputs.Keys + p.failed + p.blocked == done && DependencySet(step) <= done
    requires p.outputs.Keys !! p.failed && p.outputs.Keys !! p.blocked
    ensures var p' := ExecuteStep(job, p, step);
      && |p'.decisions| == |p.decisions| + 1 && WaitsAs(step, p.outputs, p'.decisions[|p.decisions|])
      && p'.client == p.client && p'.outputs == p.outputs && p'.attempts == p.attempts
  {
    hide StepInput, DependencySet, MissesInput;
    InputMissingWhen(job.q, p, step, done);
  }

  /** What a run has decided about its i-th step, `p` being the run before that step and `p'` after it. */
  ghost predicate Due(job: Job, c: Client, p: Progress, p': Progress, step: Step, outputs: map<string, Value>,
    d: StepDecision)
  {
    match StepInput(step, job.q.inputs, outputs)
    case None => WaitsAs(step, outputs, d) && p'.client == p.client && p'.outputs == p.outputs
    case Some(input) =>
      var signature := SignatureFor(job.q, step, input);
      && (d.stepId, d.input, d.signature) == (step.id, Some(input), Some(signature))
      && (d.decision == Reuse <==> exists r :: Offered(job.q, step, signature, Kept(c), r))
      && DecidedOn(job, p.client, step, input, signature, d)
      && Leaves(job, p, p', step, input, signature, d)
  }

  /** Every decision of a run: reused exactly when the store of the request offers a record for the input that the run
      gives the step; blocked while an attempt holds the step or without an executor; else the executor's success or
      failure.  And what it leaves is what it says. */
  lemma DecisionsAreDue(job: Job, c: Client, i: nat)
    requires Sequenced(job.q.steps) && i < |job.q.steps|
    ensures var done, start := Complete(job, c), WithPlan(c, job.q);
      && |done.decisions| == |job.q.steps|
      && Due(job, c, After(job, start, i), After(job, start, i + 1), job.q.steps[i], done.outputs, done.decisions[i])
  {
    hide After, ExecuteStep, WithPlan, StepInput, SignatureFor, Reusable, Offered, Kept, DecidedOn, Leaves;
    hide DependencySet, Sequenced, Done, Accounted;
    var start, step := WithPlan(c, job.q), job.q.steps[i];
    var p := After(job, start, i);
    DecisionsTell(job, start, i);
    DecisionStands(job, start, i);
    NextIs(job, start, i);
    StepTells(job, p, step);
    StepsAreAccountedFor(job, start, i);
    StepAdvances(job, p, step);
    var input := StepInput(step, job.q.inputs, p.outputs);
    if input.Some? {
      var signature := SignatureFor(job.q, step, input.value);
      StepIsDue(job, p, step, input.value);
      LookupAtRequest(job, c, i, signature);
      ReusableIsOffered(p.client, job.q, step, signature);
      ReusableIsOffered(c, job.q, step, signature);
      ReuseIsOnOffer(job, p.client, step, input.value, signature, Complete(job, c).decisions[i]);
    } else {
      WaitsToTheEnd(job, start, i);
    }
  }

  lemma ReuseIsOnOffer(job: Job, c: Client, step: Step, input: Value, signature: Signature, d: StepDecision)
    requires DecidedOn(job, c, step, input, signature, d)
    ensures d.decision == Reuse <==> exists r :: Offered(job.q, step, signature, Kept(c), r)
  {
    hide Offered, Kept, IsHeld, Answers;
  }

  lemma WaitsToTheEnd(job: Job, c: Client, i: nat)
    requires Sequenced(job.q.steps) && i < |job.q.steps|
    requires StepInput(job.q.steps[i], job.q.inputs, After(job, c, i).outputs).None?
    ensures var p, p', step := After(job, c, i), After(job, c, i + 1), job.q.steps[i];
      && |p'.decisions| == i + 1 && WaitsAs(step, FinalOf(job, c).outputs, p'.decisions[i])
      && p'.client == p.client && p'.outputs == p.outputs
  {
    hide ExecuteStep, StepInput;
    StepsAreAccountedFor(job, c, i);
    DependenciesAreFinal(job, c, i);
    WaitIsDue(job, After(job, c, i), job.q.steps[i], Done(job, i));
    var deps := DependencySet(job.q.steps[i]);
    assert deps <= After(job, c, i).outputs.Keys <==> deps <= FinalOf(job, c).outputs.Keys;
  }

  /** After the run the store keeps, under the input's signature, the record of every step that was executed, with its
      output. */
  lemma ExecutedWorkIsKept(job: Job, c: Client, i: nat)
    requires Sequenced(job.q.steps) && i < |job.q.steps|
    requires |Complete(job, c).decisions| == |job.q.steps|
    requires Complete(job, c).decisions[i].reason == "EXECUTED_SUCCESSFULLY"
    ensures var done, step := Complete(job, c), job.q.steps[i];
      && done.decisions[i].signature.Some? && step.id in done.outputs
      && var work := GetWork(done.client, job.q.scope, job.q.w.id, step.id, done.decisions[i].signature.value);
      && work.Some? && RecordTells(job, step, done.decisions[i].signature.value, work.value)
      && work.value.output == done.outputs[step.id]
  {
    hide After, ExecuteStep, WithPlan, StepInput, SignatureFor, Offered, DecidedOn, RecordTells, AttemptTells;
    hide DependencySet, Sequenced, Done, Accounted;
    var start, step, n := WithPlan(c, job.q), job.q.steps[i], |job.q.steps|;
    DecisionsAreDue(job, c, i);
    StepNeedsAnswer(step, Complete(job, c).outputs, Complete(job, c).decisions[i]);
    EarlierStepsStand(job, start, i + 1, n);
    var p, p' := After(job, start, i), After(job, start, i + 1);
    var input := StepInput(step, job.q.inputs, Complete(job, c).outputs).value;
    assert LeftBySuccess(job, p, p', step, input, SignatureFor(job.q, step, input));
    var key := WorkKey(job.q.scope, job.q.w.id, step.id, SignatureFor(job.q, step, input));
    OtherWorkKeys(job, i, key);
    LaterKeysUntouched(job, start, i + 1, n, key);
    assert SameEntity(p'.client, Complete(job, c).client, key);
  }

  lemma StepNeedsAnswer(step: Step, outputs: map<string, Value>, d: StepDecision)
    ensures WaitsAs(step, outputs, d) ==> d.reason != "EXECUTED_SUCCESSFULLY"
  {
  }
}
