/** The cache agrees with evaluation from scratch: in a store whose results were computed, whatever a run reuses or
    executes is the executor's answer on the step's own input. */
module CacheLaws {
  import opened Options
  import opened Json
  import opened Types
  import opened Core
  import opened Store
  import opened Planning
  import opened Engine
  import opened EngineLaws

  type Compute = (string, Value) -> Option<Value>

  // ----- evaluation from scratch ----------------------------------------------------------

  /** The workflow evaluated with no store, no clock and no failures: each step whose declared references
      all have values is the executor's answer on them. */
  function Scratch(q: Query, compute: Compute, k: nat): map<string, Value>
    requires k <= |q.steps|
  {
    if k == 0 then map[] else
    var earlier, step := Scratch(q, compute, k - 1), q.steps[k - 1];
    match StepInput(step, q.inputs, earlier)
    case None => earlier
    case Some(input) =>
      match compute(step.implementationId, input)
      case None => earlier
      case Some(v) => earlier[step.id := v]
  }

  lemma {:induction false} ScratchKeys(job: Job, k: nat)
    requires k <= |job.q.steps|
    ensures Scratch(job.q, job.compute, k).Keys <= Done(job, k)
  {
    hide Done, StepInput;
    if k > 0 {
      ScratchKeys(job, k - 1);
      DoneGrows(job, k - 1);
    }
  }

  // ----- the store invariant --------------------------------------------------------------

  /** The record holds its implementation's output on the input its signature names. */
  ghost predicate SoundRecord(r: WorkResult, compute: Compute) {
    exists version: string, input: Value ::
      r.inputSignature == SignatureOf(r.scope, r.workflowId, version, r.stepId, r.implementationId, input)
      && compute(r.implementationId, input) == Some(r.output)
  }

  ghost predicate Sound(c: Client, compute: Compute) {
    forall k :: k in c.entities && c.entities[k].Work? ==> SoundRecord(c.entities[k].result, compute)
  }

  /** The record names a persisted succeeded attempt of its step on its signature. */
  ghost predicate VouchedRecord(c: Client, r: WorkResult) {
    && r.attemptId.Some?
    && var a := GetAttempt(c, r.scope, r.attemptId.value);
    a.Some? && a.value.status == Succeeded && a.value.stepId == r.stepId && a.value.inputSignature == r.inputSignature
  }

  ghost predicate Vouched(c: Client) {
    forall k :: k in c.entities && c.entities[k].Work? ==> VouchedRecord(c, c.entities[k].result)
  }

  /** Between runs no attempt is open. */
  ghost predicate Quiet(c: Client) {
    && (forall k :: k in c.entities && c.entities[k].AttemptRecord? ==> Terminal(c.entities[k].attempt.status))
    && (forall s :: s in c.heads ==> c.heads[s] == None)
  }

  /** The store between runs: every record is in its place, decodes and is sound, and no attempt is open. */
  ghost predicate Clean(c: Client, compute: Compute) {
    Consistent(c) && Decodable(c) && Sound(c, compute) && Quiet(c)
  }

  ghost predicate Good(c: Client, compute: Compute) {
    Clean(c, compute) && Vouched(c)
  }

  // ----- preservation ---------------------------------------------------------------------

  /** Begin and end of an attempt, seen together: one terminal record, heads released. */
  lemma AttemptKeepsClean(c: Client, compute: Compute, a: Attempt, done: Attempt)
    requires Clean(c, compute)
    requires Terminal(done.status) && done.scope == a.scope && done.attemptId == a.attemptId && done.stepId == a.stepId
    ensures Clean(Finish(Begin(c, a), done), compute)
    ensures GetAttempt(Finish(Begin(c, a), done), a.scope, a.attemptId) == Some(done)
  {
    hide SoundRecord;
    var after, key := Finish(Begin(c, a), done), AttemptKey(a.scope, a.attemptId);
    assert forall k :: k != key ==> SameEntity(c, after, k);
    forall k | k in after.entities ensures Fits(k, after.entities[k]) && !after.entities[k].Damaged? {
      if k != key { assert SameEntity(c, after, k) && Fits(k, c.entities[k]); }
    }
    forall k | k in after.entities && after.entities[k].Work? ensures SoundRecord(after.entities[k].result, compute) {
      assert SameEntity(c, after, k);
    }
  }

  /** A new attempt does not overwrite one that a record names. */
  lemma AttemptKeepsVouched(c: Client, a: Attempt, done: Attempt)
    requires Vouched(c) && AttemptKey(a.scope, a.attemptId) !in c.entities
    requires done.scope == a.scope && done.attemptId == a.attemptId
    ensures Vouched(Finish(Begin(c, a), done))
  {
    var after, key := Finish(Begin(c, a), done), AttemptKey(a.scope, a.attemptId);
    assert forall k :: k != key ==> SameEntity(c, after, k);
    forall k | k in after.entities && after.entities[k].Work? ensures VouchedRecord(after, after.entities[k].result) {
      assert SameEntity(c, after, k);
      var r := c.entities[k].result;
      assert VouchedRecord(c, r) && AttemptKey(r.scope, r.attemptId.value) in c.entities;
    }
  }

  lemma ResultKeepsClean(c: Client, compute: Compute, r: WorkResult)
    requires Clean(c, compute) && SoundRecord(r, compute) && r.outputSignature == OutputSignature(r.output)
    ensures Clean(Put(c, Work(r)), compute)
  {
    hide SoundRecord;
  }

  lemma ResultKeepsVouched(c: Client, r: WorkResult)
    requires Vouched(c) && VouchedRecord(c, r)
    ensures Vouched(Put(c, Work(r)))
  {
    var after, key := Put(c, Work(r)), KeyOf(Work(r));
    forall k | k in after.entities && after.entities[k].Work?
      ensures VouchedRecord(after, after.entities[k].result)
    {
      var s := after.entities[k].result;
      assert VouchedRecord(c, s);
      assert AttemptKey(s.scope, s.attemptId.value) != key;
    }
  }

  /** Saving a result inside an attempt or after it comes to the same. */
  lemma SaveCommutes(c: Client, r: WorkResult, a: Attempt, done: Attempt)
    ensures Finish(Put(Begin(c, a), Work(r)), done) == Put(Finish(Begin(c, a), done), Work(r))
      || AttemptKey(done.scope, done.attemptId) == KeyOf(Work(r))
  {
    var x, y := Finish(Put(Begin(c, a), Work(r)), done), Put(Finish(Begin(c, a), done), Work(r));
    assert x.entities == y.entities;
  }

  lemma RunKeepsClean(job: Job, p: Progress, step: Step, input: Value, signature: Signature)
    requires Clean(p.client, job.compute) && signature == SignatureFor(job.q, step, input)
    ensures Clean(RunStep(job, p, step, input, signature).client, job.compute)
    ensures Vouched(p.client) && AttemptKey(job.q.scope, job.newId(step.id)) !in p.client.entities ==>
      Vouched(RunStep(job, p, step, input, signature).client)
  {
    hide Clean, Vouched, SignatureOf, OutputSignature;
    var a := NewAttempt(job, step, signature);
    var vouched := Vouched(p.client) && AttemptKey(job.q.scope, job.newId(step.id)) !in p.client.entities;
    match Executed(job, step, input)
    case Some(output) =>
      var done, r := a.(status := Succeeded), ResultOf(job, step, signature, output);
      AttemptKeepsClean(p.client, job.compute, a, done);
      SaveCommutes(p.client, r, a, done);
      assert SoundRecord(r, job.compute) by {
        var version := job.q.w.version;
        assert r.inputSignature == SignatureOf(r.scope, r.workflowId, version, r.stepId, r.implementationId, input);
      }
      ResultKeepsClean(Finish(Begin(p.client, a), done), job.compute, r);
      if vouched {
        AttemptKeepsVouched(p.client, a, done);
        ResultKeepsVouched(Finish(Begin(p.client, a), done), r);
      }
    case None =>
      var done := a.(status := Failed, errorCode := Some("EXECUTOR_FAILED"));
      AttemptKeepsClean(p.client, job.compute, a, done);
      if vouched { AttemptKeepsVouched(p.client, a, done); }
  }

  lemma StepKeepsClean(job: Job, p: Progress, step: Step)
    requires Clean(p.client, job.compute)
    ensures Clean(ExecuteStep(job, p, step).client, job.compute)
    ensures Vouched(p.client) && AttemptKey(job.q.scope, job.newId(step.id)) !in p.client.entities ==>
      Vouched(ExecuteStep(job, p, step).client)
  {
    hide Clean, Vouched, RunStep, StepInput, Reusable, ActiveAttempt, SignatureFor;
    var resolved := StepInput(step, job.q.inputs, p.outputs);
    if resolved.Some? {
      RunKeepsClean(job, p, step, resolved.value, SignatureFor(job.q, step, resolved.value));
    }
  }

  lemma {:induction false} RunsKeepClean(job: Job, c: Client, k: nat)
    requires Clean(c, job.compute) && k <= |job.q.steps|
    ensures Clean(After(job, c, k).client, job.compute)
  {
    hide ExecuteStep, Clean;
    if k > 0 {
      RunsKeepClean(job, c, k - 1);
      StepKeepsClean(job, After(job, c, k - 1), job.q.steps[k - 1]);
    }
  }

  lemma IdStaysFresh(job: Job, c: Client, k: nat)
    requires FreshIds(job, c) && k < |job.q.steps|
    ensures AttemptKey(job.q.scope, job.newId(job.q.steps[k].id)) !in After(job, c, k).client.entities
  {
    hide ExecuteStep;
    LaterKeysUntouched(job, c, 0, k, AttemptKey(job.q.scope, job.newId(job.q.steps[k].id)));
  }

  lemma {:induction false} RunsKeepGood(job: Job, c: Client, k: nat)
    requires Good(c, job.compute) && FreshIds(job, c) && k <= |job.q.steps|
    ensures Good(After(job, c, k).client, job.compute)
  {
    hide ExecuteStep, Clean, Vouched, FreshIds;
    if k > 0 {
      RunsKeepGood(job, c, k - 1);
      IdStaysFresh(job, c, k - 1);
      StepKeepsClean(job, After(job, c, k - 1), job.q.steps[k - 1]);
    }
  }

  /** Records that are neither results nor attempts do not matter. */
  lemma PaperKeepsClean(c: Client, compute: Compute, r: Record)
    requires Clean(c, compute) && !r.Damaged? && !r.Work? && !r.AttemptRecord?
    ensures Clean(Put(c, r), compute)
    ensures Vouched(c) ==> Vouched(Put(c, r))
  {
    hide SoundRecord;
    var after, key := Put(c, r), KeyOf(r);
    assert forall k :: k != key ==> SameEntity(c, after, k);
    forall k | Vouched(c) && k in after.entities && after.entities[k].Work?
      ensures VouchedRecord(after, after.entities[k].result)
    {
      var s := c.entities[k].result;
      assert VouchedRecord(c, s) && SameEntity(c, after, AttemptKey(s.scope, s.attemptId.value));
    }
  }

  // ----- agreement ------------------------------------------------------------------------

  /** A record that a run reuses holds the executor's answer on the run's own input. */
  lemma ReusedOutputIsComputed(job: Job, c: Client, step: Step, input: Value)
    requires Sound(c, job.compute)
    requires Reusable(c, job.q.scope, job.q, step, SignatureFor(job.q, step, input)).Some?
    ensures Some(Reusable(c, job.q.scope, job.q, step, SignatureFor(job.q, step, input)).value.output)
      == job.compute(step.implementationId, input)
  {
    hide SignatureOf;
    var signature := SignatureFor(job.q, step, input);
    var r := Reusable(c, job.q.scope, job.q, step, signature).value;
    assert SoundRecord(r, job.compute);
    var version: string, e: Value :|
      r.inputSignature == SignatureOf(r.scope, r.workflowId, version, r.stepId, r.implementationId, e)
      && job.compute(r.implementationId, e) == Some(r.output);
    SignatureIdentifiesInput(r.scope, r.workflowId, version, r.stepId, r.implementationId, e,
      job.q.scope, job.q.w.id, job.q.w.version, step.id, step.implementationId, input);
  }

  /** Whatever a step outputs is the executor's answer on the step's input. */
  lemma OutputIsComputed(job: Job, p: Progress, step: Step)
    requires Sound(p.client, job.compute) && step.id !in p.outputs
    ensures var p' := ExecuteStep(job, p, step);
      step.id in p'.outputs ==>
        && StepInput(step, job.q.inputs, p.outputs).Some?
        && Some(p'.outputs[step.id])
          == job.compute(step.implementationId, StepInput(step, job.q.inputs, p.outputs).value)
  {
    hide Sound, StepInput, Reusable, SignatureFor, ActiveAttempt, Begin, Finish, Put, ResultOf;
    var resolved := StepInput(step, job.q.inputs, p.outputs);
    if resolved.Some? && Reusable(p.client, job.q.scope, job.q, step, SignatureFor(job.q, step, resolved.value)).Some? {
      ReusedOutputIsComputed(job, p.client, step, resolved.value);
    }
  }

  lemma CleanIsSound(c: Client, compute: Compute)
    requires Clean(c, compute)
    ensures Consistent(c) && Sound(c, compute)
  {
  }

  lemma {:induction false} OutputsAgreeWithScratch(job: Job, c: Client, k: nat)
    requires Clean(c, job.compute) && Sequenced(job.q.steps) && k <= |job.q.steps|
    ensures Extends(After(job, c, k).outputs, Scratch(job.q, job.compute, k))
  {
    hide ExecuteStep, Clean, Sound, StepInput, Done;
    if k > 0 {
      var p, step := After(job, c, k - 1), job.q.steps[k - 1];
      OutputsAgreeWithScratch(job, c, k - 1);
      RunsKeepClean(job, c, k - 1);
      CleanIsSound(p.client, job.compute);
      StepsAreAccountedFor(job, c, k - 1);
      StepAdvances(job, p, step);
      DoneGrows(job, k - 1);
      ScratchKeys(job, k - 1);
      OutputIsComputed(job, p, step);
      if StepInput(step, job.q.inputs, p.outputs).Some? {
        StepInputMonotone(step, job.q.inputs, p.outputs, Scratch(job.q, job.compute, k - 1));
      }
    }
  }

  lemma NoActiveAttempt(c: Client, compute: Compute, scope: Scope, stepId: string, signature: Signature)
    requires Clean(c, compute)
    ensures ActiveAttempt(c, scope, stepId, signature) == None
  {
  }

  /** With an executor that does not fail, a step outputs exactly the executor's answer. */
  lemma ExecutableStepComputes(job: Job, p: Progress, step: Step)
    requires Clean(p.client, job.compute) && step.executable && step.id !in job.fails
    ensures ExecuteStep(job, p, step).outputs ==
      match StepInput(step, job.q.inputs, p.outputs)
      case None => p.outputs
      case Some(input) =>
        match job.compute(step.implementationId, input)
        case None => p.outputs
        case Some(v) => p.outputs[step.id := v]
  {
    hide Clean, Sound, StepInput, Reusable, SignatureFor, ActiveAttempt, Begin, Finish, Put, ResultOf;
    var resolved := StepInput(step, job.q.inputs, p.outputs);
    if resolved.Some? {
      var signature := SignatureFor(job.q, step, resolved.value);
      CleanIsSound(p.client, job.compute);
      NoActiveAttempt(p.client, job.compute, job.q.scope, step.id, signature);
      if Reusable(p.client, job.q.scope, job.q, step, signature).Some? {
        ReusedOutputIsComputed(job, p.client, step, resolved.value);
      }
    }
  }

  /** Conversely, when every step has an executor and none fails, the run outputs all of the evaluation from
      scratch, whatever the store held before. */
  lemma {:induction false} NothingIsMissedWithoutFailures(job: Job, c: Client, k: nat)
    requires Clean(c, job.compute) && k <= |job.q.steps|
    requires job.fails == {} && forall i :: 0 <= i < |job.q.steps| ==> job.q.steps[i].executable
    ensures After(job, c, k).outputs == Scratch(job.q, job.compute, k)
  {
    hide ExecuteStep, Clean, StepInput;
    if k > 0 {
      NothingIsMissedWithoutFailures(job, c, k - 1);
      RunsKeepClean(job, c, k - 1);
      ExecutableStepComputes(job, After(job, c, k - 1), job.q.steps[k - 1]);
    }
  }

  /** A run from a clean store: the store stays clean, no lookup raises, every output is what evaluation from scratch
      gives, and nothing is missing when every step has an executor that does not fail. */
  lemma RunsComputeScratch(job: Job, c: Client)
    requires Clean(c, job.compute) && Sequenced(job.q.steps)
    ensures Clean(Complete(job, c).client, job.compute) && RunsThrough(job, c)
    ensures Extends(Complete(job, c).outputs, Scratch(job.q, job.compute, |job.q.steps|))
    ensures job.fails == {} && (forall i :: 0 <= i < |job.q.steps| ==> job.q.steps[i].executable) ==>
      Complete(job, c).outputs == Scratch(job.q, job.compute, |job.q.steps|)
  {
    hide After, Clean, Sequenced, Scratch, Raises;
    PaperKeepsClean(c, job.compute, PlanRecord(PlanOf(job.q, LookupPreview(c, job.q, |job.q.steps|).decisions)));
    var start := WithPlan(c, job.q);
    RunsKeepClean(job, start, |job.q.steps|);
    OutputsAgreeWithScratch(job, start, |job.q.steps|);
    forall j | 0 <= j < |job.q.steps| ensures !Raises(job, After(job, start, j), job.q.steps[j]) {
      RunsKeepClean(job, start, j);
      CleanNeverRaises(job, After(job, start, j), job.q.steps[j]);
    }
    if job.fails == {} && (forall i :: 0 <= i < |job.q.steps| ==> job.q.steps[i].executable) {
      NothingIsMissedWithoutFailures(job, start, |job.q.steps|);
    }
  }

  lemma CleanNeverRaises(job: Job, p: Progress, step: Step)
    requires Clean(p.client, job.compute)
    ensures !Raises(job, p, step)
  {
    hide StepInput, SignatureFor, Consistent, Sound, Quiet;
  }

  /** With fresh attempt ids every record also keeps naming a persisted succeeded attempt. */
  lemma RunsKeepVouched(job: Job, c: Client)
    requires Good(c, job.compute) && FreshIds(job, WithPlan(c, job.q))
    ensures Vouched(Complete(job, c).client)
  {
    hide After, Clean, Vouched, FreshIds;
    PaperKeepsClean(c, job.compute, PlanRecord(PlanOf(job.q, LookupPreview(c, job.q, |job.q.steps|).decisions)));
    RunsKeepGood(job, WithPlan(c, job.q), |job.q.steps|);
  }
}
