/** What a run reuses: execution refines its preview, and a second run reuses everything that the changed
    inputs do not reach. */
module ReuseLaws {
  import opened Options
  import opened Json
  import opened Types
  import opened Core
  import opened Store
  import opened Planning
  import opened Engine
  import opened EngineLaws
  import opened InputLaws

  // ----- lookups during a run -------------------------------------------------------------

  /** While a run is at its i-th step, the records of that step are as they were before the run. */
  lemma LookupUnchanged(job: Job, c: Client, i: nat, signature: Signature)
    requires Sequenced(job.q.steps) && i < |job.q.steps|
    ensures var step := job.q.steps[i];
      Reusable(After(job, c, i).client, job.q.scope, job.q, step, signature)
        == Reusable(c, job.q.scope, job.q, step, signature)
  {
    hide ExecuteStep, Usable;
    var key := WorkKey(job.q.scope, job.q.w.id, job.q.steps[i].id, signature);
    OtherWorkKeys(job, i, key);
    LaterKeysUntouched(job, c, 0, i, key);
  }

  lemma PlanLeavesWork(c: Client, q: Query, step: Step, signature: Signature)
    ensures Reusable(WithPlan(c, q), q.scope, q, step, signature) == Reusable(c, q.scope, q, step, signature)
  {
    hide LookupPreview, PlanOf, Usable;
  }

  /** The i-th step of a complete run sees the records that were there when the run was requested. */
  lemma LookupAtRequest(job: Job, c: Client, i: nat, signature: Signature)
    requires Sequenced(job.q.steps) && i < |job.q.steps|
    ensures var step := job.q.steps[i];
      Reusable(After(job, WithPlan(c, job.q), i).client, job.q.scope, job.q, step, signature)
        == Reusable(c, job.q.scope, job.q, step, signature)
  {
    hide WithPlan, After, Reusable;
    LookupUnchanged(job, WithPlan(c, job.q), i, signature);
    PlanLeavesWork(c, job.q, job.q.steps[i], signature);
  }

  // ----- execution refines preview --------------------------------------------------------

  /** How one decision of a run relates to the preview's decision for the same step. */
  ghost predicate Refines(d: StepDecision, e: StepDecision) {
    && d.stepId == e.stepId
    && (d.decision == Reuse ==> e.decision == Reuse)
    && (d.decision == Rerun ==> e.decision != Reuse)
    && (d.decision == Reuse || d.decision == Rerun || d.decision == PendingDependency)
    && (d.decision != PendingDependency ==> e.signature == d.signature && e.input == d.input)
  }

  ghost predicate RefinesNow(p: Preview, p': Preview, e: Progress, e': Progress, step: Step) {
    && |p'.decisions| == |p.decisions| + 1 && p'.decisions[..|p.decisions|] == p.decisions
    && |e'.decisions| == |e.decisions| + 1
    && Refines(p'.decisions[|p.decisions|], e'.decisions[|e.decisions|])
    && (forall s :: s in p'.outputs ==> s in p.outputs || s == step.id)
    && (forall s :: s in p.outputs && s != step.id ==> s in p'.outputs && p'.outputs[s] == p.outputs[s])
    && (p'.decisions[|p.decisions|].decision == Reuse <==> step.id in p'.outputs)
    && (step.id in p'.outputs ==> step.id in e'.outputs && e'.outputs[step.id] == p'.outputs[step.id])
  }

  lemma StepRefines(job: Job, p: Preview, e: Progress, step: Step, found: Option<WorkResult>)
    requires Extends(p.outputs, e.outputs) && step.id !in p.outputs
    requires var resolved := StepInput(step, job.q.inputs, p.outputs);
      resolved.Some? ==>
        found == Reusable(e.client, job.q.scope, job.q, step, SignatureFor(job.q, step, resolved.value))
    ensures RefinesNow(p, PreviewStep(job.q, p, step, found), e, ExecuteStep(job, e, step), step)
  {
    hide StepInput, SignatureFor, Reusable, ActiveAttempt, Executed, ResultOf, NewAttempt, Begin, Finish, Put;
    if StepInput(step, job.q.inputs, p.outputs).Some? {
      StepInputMonotone(step, job.q.inputs, p.outputs, e.outputs);
    }
    StepAdvances(job, e, step);
  }

  /** The preview after `k` steps, against the run after `k` steps. */
  ghost predicate RefinesSoFar(q: Query, p: Preview, e: Progress, k: nat)
    requires k <= |q.steps|
  {
    && |p.decisions| == k && |e.decisions| == k
    && Extends(p.outputs, e.outputs)
    && (forall s :: s in p.outputs ==> s in Ids(q.steps[..k]))
    && forall i :: 0 <= i < k ==>
      && Refines(p.decisions[i], e.decisions[i])
      && (p.decisions[i].decision == Reuse <==> q.steps[i].id in p.outputs)
  }

  lemma RefinesOneMore(job: Job, p: Preview, p': Preview, e: Progress, e': Progress, k: nat)
    requires Sequenced(job.q.steps) && k < |job.q.steps| && RefinesSoFar(job.q, p, e, k)
    requires RefinesNow(p, p', e, e', job.q.steps[k]) && Advances(e, e', job.q.steps[k].id)
    requires Stands(e, e', Done(job, k)) && job.q.steps[k].id !in p.outputs
    ensures RefinesSoFar(job.q, p', e', k + 1)
  {
    hide Refines, Done;
    var steps := job.q.steps;
    assert Ids(steps[..k + 1]) == Ids(steps[..k]) + [steps[k].id];
    forall i | 0 <= i < k + 1
      ensures Refines(p'.decisions[i], e'.decisions[i])
      ensures p'.decisions[i].decision == Reuse <==> steps[i].id in p'.outputs
    {
      if i < k {
        assert p'.decisions[i] == p'.decisions[..k][i] && e'.decisions[i] == e'.decisions[..k][i];
        assert steps[i].id != steps[k].id;
      }
    }
  }

  lemma {:induction false} RunRefinesPreview(job: Job, c: Client, k: nat)
    requires Sequenced(job.q.steps) && k <= |job.q.steps|
    ensures RefinesSoFar(job.q, LookupPreview(c, job.q, k), After(job, WithPlan(c, job.q), k), k)
  {
    hide ExecuteStep, PreviewStep, WithPlan, Refines, Reusable, StepInput, SignatureFor, Done;
    if k > 0 {
      RunRefinesPreview(job, c, k - 1);
      var p, e, step := LookupPreview(c, job.q, k - 1), After(job, WithPlan(c, job.q), k - 1), job.q.steps[k - 1];
      var resolved := StepInput(step, job.q.inputs, p.outputs);
      var found := if resolved.None? then None
        else Reusable(c, job.q.scope, job.q, step, SignatureFor(job.q, step, resolved.value));
      if resolved.Some? {
        LookupAtRequest(job, c, k - 1, SignatureFor(job.q, step, resolved.value));
      }
      NotYetReused(job.q.steps, p, k - 1);
      StepRefines(job, p, e, step, found);
      StepAdvances(job, e, step);
      EarlierStepsStand(job, WithPlan(c, job.q), k - 1, k);
      RefinesOneMore(job, p, LookupPreview(c, job.q, k), e, After(job, WithPlan(c, job.q), k), k - 1);
    }
  }

  /** On the same store, time and request: what the preview reuses the run reuses, with the same output; what
      the preview would rerun the run never reuses; only waiting steps can resolve either way. */
  lemma ExecutionRefinesPreview(job: Job, c: Client, i: nat)
    requires Sequenced(job.q.steps) && i < |job.q.steps|
    ensures var p, e := LookupPreview(c, job.q, |job.q.steps|), Complete(job, c);
      && |p.decisions| == |job.q.steps| == |e.decisions|
      && Refines(p.decisions[i], e.decisions[i])
      && (p.decisions[i].decision == Reuse ==>
        var id := job.q.steps[i].id; id in p.outputs && id in e.outputs && e.outputs[id] == p.outputs[id])
  {
    hide After, LookupPreview, WithPlan, Refines;
    RunRefinesPreview(job, c, |job.q.steps|);
  }

  // ----- selective rerun ------------------------------------------------------------------

  /** Apart from freshness, `r` is the record a run needs for this step and input, with this output. */
  ghost predicate Serves(q: Query, step: Step, input: Value, r: WorkResult, output: Value) {
    && r.scope == q.scope && r.workflowId == q.w.id && r.stepId == step.id
    && r.implementationId == step.implementationId && r.inputSignature == SignatureFor(q, step, input)
    && ArtifactUsable(r) && r.output == output
  }

  ghost predicate Serving(c: Client, q: Query, step: Step, input: Value, output: Value) {
    var r := GetWork(c, q.scope, q.w.id, step.id, SignatureFor(q, step, input));
    r.Some? && Serves(q, step, input, r.value, output)
  }

  lemma RunLeavesRecord(job: Job, p: Progress, step: Step, input: Value)
    ensures var p' := RunStep(job, p, step, input, SignatureFor(job.q, step, input));
      p'.outputs != p.outputs || step.id in p'.outputs ==>
        (Executed(job, step, input).Some? ==> Serving(p'.client, job.q, step, input, p'.outputs[step.id]))
  {
    hide SignatureFor, Executed, OutputSignature, FreshUntil, ProvenanceFor;
  }

  /** A step that outputs leaves a record serving its input and output. */
  lemma OutputLeavesRecord(job: Job, p: Progress, step: Step)
    requires step.id !in p.outputs && step.id in ExecuteStep(job, p, step).outputs
    ensures var p' := ExecuteStep(job, p, step);
      && StepInput(step, job.q.inputs, p.outputs).Some?
      && Serving(p'.client, job.q, step, StepInput(step, job.q.inputs, p.outputs).value, p'.outputs[step.id])
  {
    hide SignatureFor, StepInput, ActiveAttempt, Executed, ResultOf, Begin, Finish, Put, Serving;
    StepNeedsInput(job, p, step);
    var input := StepInput(step, job.q.inputs, p.outputs).value;
    var signature := SignatureFor(job.q, step, input);
    if Reusable(p.client, job.q.scope, job.q, step, signature).Some? {
      ReusedServes(job, p, step, input);
    } else {
      RunLeavesRecord(job, p, step, input);
    }
  }

  lemma ReusedServes(job: Job, p: Progress, step: Step, input: Value)
    requires Reusable(p.client, job.q.scope, job.q, step, SignatureFor(job.q, step, input)).Some?
    ensures Serving(p.client, job.q, step, input,
      Reusable(p.client, job.q.scope, job.q, step, SignatureFor(job.q, step, input)).value.output)
  {
    hide SignatureFor;
  }

  /** The input a step had in a run: its bindings resolved against the run's outputs. */
  function FinalInput(job: Job, c: Client, i: nat): Option<Value>
    requires i < |job.q.steps|
  {
    StepInput(job.q.steps[i], job.q.inputs, FinalOf(job, c).outputs)
  }

  /** After a run, every step with an output has a record serving its final input. */
  lemma RunServes(job: Job, c: Client, i: nat)
    requires Sequenced(job.q.steps) && i < |job.q.steps| && job.q.steps[i].id in FinalOf(job, c).outputs
    ensures FinalInput(job, c, i).Some?
    ensures Serving(FinalOf(job, c).client, job.q, job.q.steps[i], FinalInput(job, c, i).value,
      FinalOf(job, c).outputs[job.q.steps[i].id])
  {
    hide ExecuteStep, StepInput, SignatureFor, Serves;
    var n, step := |job.q.steps|, job.q.steps[i];
    StepsAreAccountedFor(job, c, i);
    DoneGrows(job, i);
    EarlierStepsStand(job, c, i, n);
    EarlierStepsStand(job, c, i + 1, n);
    OutputLeavesRecord(job, After(job, c, i), step);
    var input := StepInput(step, job.q.inputs, After(job, c, i).outputs).value;
    StepInputMonotone(step, job.q.inputs, After(job, c, i).outputs, FinalOf(job, c).outputs);
    var key := WorkKey(job.q.scope, job.q.w.id, step.id, SignatureFor(job.q, step, input));
    OtherWorkKeys(job, i, key);
    LaterKeysUntouched(job, c, i + 1, n, key);
  }

  /** The record that serves the step's final input of a run is fresh at this time. */
  ghost predicate StillFresh(first: Job, c: Client, i: nat, now: int)
    requires i < |first.q.steps|
  {
    match FinalInput(first, WithPlan(c, first.q), i)
    case None => true
    case Some(input) => FreshRecord(Complete(first, c).client, first.q, first.q.steps[i], input, now)
  }

  ghost predicate FreshRecord(c: Client, q: Query, step: Step, input: Value, now: int) {
    match GetWork(c, q.scope, q.w.id, step.id, SignatureFor(q, step, input))
    case None => true
    case Some(r) => IsFresh(r, now)
  }

  /** A later request for the same steps of the same project. */
  ghost predicate SameSteps(a: Query, b: Query) {
    a.scope == b.scope && a.w == b.w && a.steps == b.steps
  }

  lemma ServingIsReusable(c: Client, a: Query, b: Query, step: Step, input: Value, output: Value)
    requires SameSteps(a, b) && Serving(c, a, step, input, output) && FreshRecord(c, a, step, input, b.now)
    ensures var r := Reusable(c, b.scope, b, step, SignatureFor(b, step, input));
      r.Some? && r.value.output == output
  {
    hide InputSignature;
  }

  lemma ReuseDecides(job: Job, p: Progress, step: Step, input: Value)
    requires StepInput(step, job.q.inputs, p.outputs) == Some(input)
    requires Reusable(p.client, job.q.scope, job.q, step, SignatureFor(job.q, step, input)).Some?
    ensures var p' := ExecuteStep(job, p, step);
      && |p'.decisions| == |p.decisions| + 1 && p'.decisions[|p.decisions|].decision == Reuse
      && p'.attempts == p.attempts
      && step.id in p'.outputs && p'.outputs[step.id] ==
        Reusable(p.client, job.q.scope, job.q, step, SignatureFor(job.q, step, input)).value.output
  {
    hide StepInput, SignatureFor, Reusable, ActiveAttempt, RunStep;
  }

  /** A step whose resolved bindings come out as in the first run is reused, with the first run's output -- also
      when steps above it ran again. */
  lemma EqualInputIsReused(first: Job, c: Client, second: Job, i: nat)
    requires SameSteps(first.q, second.q) && Sequenced(first.q.steps) && i < |first.q.steps|
    requires first.q.steps[i].id in Complete(first, c).outputs
    requires StillFresh(first, c, i, second.q.now)
    requires StepInput(second.q.steps[i], second.q.inputs,
      After(second, WithPlan(Complete(first, c).client, second.q), i).outputs)
      == FinalInput(first, WithPlan(c, first.q), i)
    ensures var done := Complete(second, Complete(first, c).client);
      && |done.decisions| == |second.q.steps| && done.decisions[i].decision == Reuse
      && var id := second.q.steps[i].id;
      id in done.outputs && done.outputs[id] == Complete(first, c).outputs[id]
    ensures var start := WithPlan(Complete(first, c).client, second.q);
      After(second, start, i + 1).attempts == After(second, start, i).attempts
  {
    hide ExecuteStep, After, WithPlan, StepInput, SignatureFor, Serving, Reusable, FreshRecord, Done;
    var mid, step, id := Complete(first, c).client, second.q.steps[i], second.q.steps[i].id;
    var start := WithPlan(mid, second.q);
    RunServes(first, WithPlan(c, first.q), i);
    var input := FinalInput(first, WithPlan(c, first.q), i).value;
    ServingIsReusable(mid, first.q, second.q, step, input, Complete(first, c).outputs[id]);
    LookupAtRequest(second, mid, i, SignatureFor(second.q, step, input));
    ReuseDecides(second, After(second, start, i), step, input);
    NextIs(second, start, i);
    EarlierStepsStand(second, start, i, i + 1);
    EarlierStepsStand(second, start, i + 1, |second.q.steps|);
    DecisionStands(second, start, i);
  }

  lemma NextIs(job: Job, c: Client, i: nat)
    requires i < |job.q.steps|
    ensures After(job, c, i + 1) == ExecuteStep(job, After(job, c, i), job.q.steps[i])
  {
    hide ExecuteStep;
  }

  // ----- paths from changed inputs --------------------------------------------------------

  /** A dependency path from an input in `changed` to the step. */
  ghost predicate Reached(steps: seq<Step>, changed: set<string>, step: Step) {
    exists p :: StepChain(steps, p) && p[|p| - 1] == step && BindsChanged(p[0], changed)
  }

  ghost predicate BindsChanged(step: Step, changed: set<string>) {
    exists name :: name in changed && In(name) in Refs(step)
  }

  ghost predicate SameOutside(changed: set<string>, a: map<string, Value>, b: map<string, Value>) {
    forall name :: name !in changed ==> (name in a <==> name in b) && (name in a ==> a[name] == b[name])
  }

  lemma ReachExtends(steps: seq<Step>, changed: set<string>, step: Step, next: Step)
    requires next in steps && step.id in DependencySet(next)
    ensures Reached(steps, changed, step) ==> Reached(steps, changed, next)
  {
    if Reached(steps, changed, step) {
      var p :| StepChain(steps, p) && p[|p| - 1] == step && BindsChanged(p[0], changed);
      var longer := p + [next];
      assert StepChain(steps, longer) && longer[|longer| - 1] == next && longer[0] == p[0];
    }
  }

  lemma UnreachedBinds(steps: seq<Step>, changed: set<string>, i: nat)
    requires Sequenced(steps) && i < |steps| && !Reached(steps, changed, steps[i])
    ensures !BindsChanged(steps[i], changed)
    ensures forall j :: 0 <= j < i && steps[j].id in DependencySet(steps[i]) ==> !Reached(steps, changed, steps[j])
  {
    if BindsChanged(steps[i], changed) {
      assert StepChain(steps, [steps[i]]);
    }
    forall j | 0 <= j < i && steps[j].id in DependencySet(steps[i]) ensures !Reached(steps, changed, steps[j]) {
      ReachExtends(steps, changed, steps[j], steps[i]);
    }
  }

  /** Every output of the first run, at steps the changed inputs do not reach, is there again. */
  ghost predicate AgreeUnreached(first: map<string, Value>, second: map<string, Value>, steps: seq<Step>,
    changed: set<string>, k: nat)
    requires k <= |steps|
  {
    forall j :: 0 <= j < k && !Reached(steps, changed, steps[j]) ==>
      steps[j].id in first && steps[j].id in second && second[steps[j].id] == first[steps[j].id]
  }

  lemma UnreachedInputSame(a: Query, x: map<string, Value>, b: Query, y: map<string, Value>, changed: set<string>,
    i: nat)
    requires SameSteps(a, b) && Sequenced(a.steps) && i < |a.steps|
    requires SameOutside(changed, a.inputs, b.inputs)
    requires AgreeUnreached(x, y, a.steps, changed, i) && !Reached(a.steps, changed, a.steps[i])
    ensures StepInput(a.steps[i], a.inputs, x) == StepInput(a.steps[i], b.inputs, y)
  {
    hide StepInput, Reached;
    var steps := a.steps;
    UnreachedBinds(steps, changed, i);
    forall r | r in Refs(steps[i]) ensures Core.Lookup(r, a.inputs, x) == Core.Lookup(r, b.inputs, y) {
      if r.Out? {
        assert r.stepId in DependencySet(steps[i]);
        var j :| 0 <= j < i && Ids(steps[..i])[j] == r.stepId;
        assert !Reached(steps, changed, steps[j]);
      }
    }
    StepInputReadsRefs(steps[i], a.inputs, x, b.inputs, y);
  }

  ghost predicate AllProduced(steps: seq<Step>, p: Progress) {
    forall i :: 0 <= i < |steps| ==> steps[i].id in p.outputs
  }

  /** The records that the first run used at steps the changed inputs do not reach are still fresh. */
  ghost predicate UnreachedFresh(first: Job, c: Client, changed: set<string>, now: int) {
    forall i :: 0 <= i < |first.q.steps| && !Reached(first.q.steps, changed, first.q.steps[i]) ==>
      StillFresh(first, c, i, now)
  }

  lemma {:induction false} UnreachedAgree(first: Job, c: Client, second: Job, changed: set<string>, k: nat)
    requires SameSteps(first.q, second.q) && Sequenced(first.q.steps) && k <= |first.q.steps|
    requires SameOutside(changed, first.q.inputs, second.q.inputs)
    requires AllProduced(first.q.steps, Complete(first, c)) && UnreachedFresh(first, c, changed, second.q.now)
    ensures AgreeUnreached(Complete(first, c).outputs,
      After(second, WithPlan(Complete(first, c).client, second.q), k).outputs, first.q.steps, changed, k)
    ensures forall j :: 0 <= j < k && !Reached(first.q.steps, changed, first.q.steps[j]) ==>
      |Complete(second, Complete(first, c).client).decisions| == |second.q.steps|
      && Complete(second, Complete(first, c).client).decisions[j].decision == Reuse
    ensures (forall j :: 0 <= j < k ==> !Reached(first.q.steps, changed, first.q.steps[j])) ==>
      After(second, WithPlan(Complete(first, c).client, second.q), k).attempts == []
  {
    hide ExecuteStep, WithPlan, Reached, StepInput, StillFresh, Done, SameOutside;
    if k > 0 {
      var mid := Complete(first, c).client;
      var start, i := WithPlan(mid, second.q), k - 1;
      UnreachedAgree(first, c, second, changed, i);
      EarlierStepsStand(second, start, i, k);
      if !Reached(first.q.steps, changed, first.q.steps[i]) {
        UnreachedInputSame(first.q, Complete(first, c).outputs, second.q, After(second, start, i).outputs, changed, i);
        EqualInputIsReused(first, c, second, i);
        EarlierStepsStand(second, start, k, |second.q.steps|);
        LastIsDone(second, k);
      }
      AgreeStands(Complete(first, c).outputs, After(second, start, i).outputs, After(second, start, k).outputs,
        first.q.steps, changed, i);
    }
  }

  lemma LastIsDone(job: Job, k: nat)
    requires 0 < k <= |job.q.steps|
    ensures job.q.steps[k - 1].id in Done(job, k)
  {
    DoneGrows(job, k - 1);
  }

  lemma AgreeStands(first: map<string, Value>, e: map<string, Value>, e': map<string, Value>, steps: seq<Step>,
    changed: set<string>, i: nat)
    requires i < |steps| && AgreeUnreached(first, e, steps, changed, i) && Extends(e, e')
    ensures AgreeUnreached(first, e', steps, changed, i)
  {
    hide Reached;
  }

  /** After a run in which every step produced an output, a second run whose inputs differ only on `changed`, at a
      time when the records it can reuse are still fresh, reuses every step that no dependency path from `changed`
      reaches. */
  lemma SelectiveRerun(first: Job, c: Client, second: Job, changed: set<string>, i: nat)
    requires SameSteps(first.q, second.q) && Sequenced(first.q.steps) && i < |first.q.steps|
    requires SameOutside(changed, first.q.inputs, second.q.inputs)
    requires AllProduced(first.q.steps, Complete(first, c)) && UnreachedFresh(first, c, changed, second.q.now)
    requires !Reached(first.q.steps, changed, first.q.steps[i])
    ensures var done, id := Complete(second, Complete(first, c).client), first.q.steps[i].id;
      && |done.decisions| == |first.q.steps| && done.decisions[i].decision == Reuse
      && id in done.outputs && done.outputs[id] == Complete(first, c).outputs[id]
  {
    hide After, WithPlan, Reached, UnreachedFresh, SameOutside, AllProduced;
    UnreachedAgree(first, c, second, changed, |first.q.steps|);
  }

  // ----- what a preview reuses after a run ------------------------------------------------

  /** The preview so far carries the first run's outputs at the steps the changed inputs do not reach. */
  ghost predicate PreviewCarries(first: map<string, Value>, p: Preview, steps: seq<Step>, changed: set<string>, k: nat)
    requires k <= |steps|
  {
    && |p.decisions| == k && (forall id :: id in p.outputs ==> id in Ids(steps[..k]))
    && AgreeUnreached(first, p.outputs, steps, changed, k)
    && forall j :: 0 <= j < k && !Reached(steps, changed, steps[j]) ==> p.decisions[j].decision == Reuse
  }

  lemma CarriesOneMore(first: map<string, Value>, q: Query, p: Preview, found: Option<WorkResult>,
    changed: set<string>, k: nat)
    requires Sequenced(q.steps) && k < |q.steps| && PreviewCarries(first, p, q.steps, changed, k)
    requires !Reached(q.steps, changed, q.steps[k]) ==>
      && StepInput(q.steps[k], q.inputs, p.outputs).Some? && found.Some?
      && q.steps[k].id in first && found.value.output == first[q.steps[k].id]
    ensures PreviewCarries(first, PreviewStep(q, p, q.steps[k], found), q.steps, changed, k + 1)
  {
    hide Reached, StepInput, SignatureFor;
    assert Ids(q.steps[..k + 1]) == Ids(q.steps[..k]) + [q.steps[k].id];
    NotYetReused(q.steps, p, k);
  }

  lemma {:induction false} PreviewCarriesUnreached(first: Job, c: Client, q: Query, changed: set<string>, k: nat)
    requires SameSteps(first.q, q) && Sequenced(first.q.steps) && k <= |first.q.steps|
    requires SameOutside(changed, first.q.inputs, q.inputs)
    requires AllProduced(first.q.steps, Complete(first, c)) && UnreachedFresh(first, c, changed, q.now)
    ensures PreviewCarries(Complete(first, c).outputs, LookupPreview(Complete(first, c).client, q, k), q.steps,
      changed, k)
  {
    hide ExecuteStep, After, WithPlan, Reached, StepInput, SignatureFor, Serving, FreshRecord, SameOutside, Reusable;
    if k > 0 {
      var i, step, mid, x := k - 1, q.steps[k - 1], Complete(first, c).client, Complete(first, c).outputs;
      PreviewCarriesUnreached(first, c, q, changed, i);
      var p := LookupPreview(mid, q, i);
      var resolved := StepInput(step, q.inputs, p.outputs);
      var found := if resolved.None? then None
        else Reusable(mid, q.scope, q, step, SignatureFor(q, step, resolved.value));
      if !Reached(q.steps, changed, step) {
        UnreachedInputSame(first.q, x, q, p.outputs, changed, i);
        RunServes(first, WithPlan(c, first.q), i);
        assert StillFresh(first, c, i, q.now);
        ServingIsReusable(mid, first.q, q, step, resolved.value, x[step.id]);
      }
      CarriesOneMore(x, q, p, found, changed, i);
    }
  }

  /** The preview of a request whose inputs differ on `changed` from those of a complete earlier run, whose records are
      still fresh, reuses every step that no dependency path from `changed` reaches. */
  lemma PreviewReusesUnreached(first: Job, c: Client, q: Query, changed: set<string>)
    requires SameSteps(first.q, q) && Sequenced(first.q.steps) && SameOutside(changed, first.q.inputs, q.inputs)
    requires AllProduced(first.q.steps, Complete(first, c)) && UnreachedFresh(first, c, changed, q.now)
    ensures var decisions := LookupPreview(Complete(first, c).client, q, |q.steps|).decisions;
      |decisions| == |q.steps| && forall i :: 0 <= i < |q.steps| && !Reached(q.steps, changed, q.steps[i]) ==>
        decisions[i].decision == Reuse
  {
    hide Complete, LookupPreview, Reached, UnreachedFresh, SameOutside, AllProduced;
    PreviewCarriesUnreached(first, c, q, changed, |q.steps|);
  }

  /** After a complete run whose records are still fresh, the preview of the same request reuses every step. */
  lemma UnchangedRequestIsPreviewedAsReuse(first: Job, c: Client, q: Query)
    requires SameSteps(first.q, q) && Sequenced(first.q.steps) && first.q.inputs == q.inputs
    requires AllProduced(first.q.steps, Complete(first, c))
    requires forall i :: 0 <= i < |first.q.steps| ==> StillFresh(first, c, i, q.now)
    ensures var decisions := LookupPreview(Complete(first, c).client, q, |q.steps|).decisions;
      |decisions| == |q.steps| && forall i :: 0 <= i < |q.steps| ==> decisions[i].decision == Reuse
  {
    hide Complete, LookupPreview, Reached, StillFresh, AllProduced;
    forall i | 0 <= i < |q.steps| ensures !Reached(q.steps, {}, q.steps[i]) {
      NothingReachedWithoutChanges(q.steps, q.steps[i]);
    }
    PreviewReusesUnreached(first, c, q, {});
  }

  // ----- changed bindings -----------------------------------------------------------------

  /** Something the step binds, an input or another step's output, is there in the first environment and not the same
      in the second. */
  ghost predicate BindsOther(step: Step, i1: map<string, Value>, o1: map<string, Value>, i2: map<string, Value>,
    o2: map<string, Value>)
  {
    || (exists name :: In(name) in Refs(step) && name in i1 && (name !in i2 || i2[name] != i1[name]))
    || (exists s :: s in DependencySet(step) && s in o1 && (s !in o2 || o2[s] != o1[s]))
  }

  lemma StepTells(job: Job, p: Progress, step: Step)
    ensures var p', input := ExecuteStep(job, p, step), StepInput(step, job.q.inputs, p.outputs);
      && |p'.decisions| == |p.decisions| + 1
      && var d := p'.decisions[|p.decisions|];
      && d.input == input
      && d.signature == (match input case Some(v) => Some(SignatureFor(job.q, step, v)) case None => None)
      && (d.decision == Reuse ==>
        && input.Some?
        && Reusable(p.client, job.q.scope, job.q, step, SignatureFor(job.q, step, input.value)).Some?)
  {
    hide SignatureFor, Reusable, StepInput, ActiveAttempt, Executed, ResultOf, NewAttempt, Begin, Finish, Put;
  }

  /** Every decision of a run names the input that the run's outputs give the step, and its signature; what it reuses
      is a usable record under that signature. */
  lemma DecisionsTell(job: Job, c: Client, i: nat)
    requires Sequenced(job.q.steps) && i < |job.q.steps|
    ensures |FinalOf(job, c).decisions| == |job.q.steps|
    ensures var d, input := FinalOf(job, c).decisions[i], FinalInput(job, c, i);
      && d.input == input
      && d.signature == (match input case Some(v) => Some(SignatureFor(job.q, job.q.steps[i], v)) case None => None)
      && (d.decision == Reuse ==>
        && input.Some?
        && Reusable(After(job, c, i).client, job.q.scope, job.q, job.q.steps[i], d.signature.value).Some?)
  {
    hide ExecuteStep, StepInput, SignatureFor, Reusable;
    var n, step, p := |job.q.steps|, job.q.steps[i], After(job, c, i);
    DecisionStands(job, c, i);
    StepTells(job, p, step);
    EarlierStepsStand(job, c, i, n);
    if StepInput(step, job.q.inputs, p.outputs).Some? {
      StepInputMonotone(step, job.q.inputs, p.outputs, FinalOf(job, c).outputs);
    } else {
      DependenciesAreFinal(job, c, i);
      StepsAreAccountedFor(job, c, i);
      StepsAreAccountedFor(job, c, n);
      DoneMonotone(job, i, n);
      InputMissingWhen(job.q, p, step, Done(job, i));
      InputMissingWhen(job.q, FinalOf(job, c), step, Done(job, n));
    }
  }

  lemma OtherBindingsOtherInput(step: Step, i1: map<string, Value>, o1: map<string, Value>, i2: map<string, Value>,
    o2: map<string, Value>)
    requires WellNamed(Fields(step.bind)) && BindsOther(step, i1, o1, i2, o2) && StepInput(step, i1, o1).Some?
    ensures StepInput(step, i1, o1) != StepInput(step, i2, o2)
  {
    hide StepInput;
    if StepInput(step, i1, o1) == StepInput(step, i2, o2) {
      EqualInputsReadAlike(step, i1, o1, i2, o2);
      assert false;
    }
  }

  lemma RunWritesOneRecord(job: Job, p: Progress, step: Step, input: Value, signature: Signature, other: Signature)
    requires other != signature
    ensures SameEntity(p.client, RunStep(job, p, step, input, signature).client,
      WorkKey(job.q.scope, job.q.w.id, step.id, other))
  {
    hide Executed, OutputSignature, FreshUntil, ProvenanceFor;
  }

  /** A step writes work under the signature of its present input only. */
  lemma StepWritesItsSignature(job: Job, p: Progress, step: Step, signature: Signature)
    requires match StepInput(step, job.q.inputs, p.outputs)
      case Some(input) => SignatureFor(job.q, step, input) != signature
      case None => true
    ensures SameEntity(p.client, ExecuteStep(job, p, step).client,
      WorkKey(job.q.scope, job.q.w.id, step.id, signature))
  {
    hide SignatureFor, Reusable, StepInput, ActiveAttempt, RunStep;
    var resolved := StepInput(step, job.q.inputs, p.outputs);
    if resolved.Some? {
      RunWritesOneRecord(job, p, step, resolved.value, SignatureFor(job.q, step, resolved.value), signature);
    }
  }

  lemma RunWritesItsSignature(job: Job, c: Client, i: nat, signature: Signature)
    requires Sequenced(job.q.steps) && i < |job.q.steps|
    requires match FinalInput(job, WithPlan(c, job.q), i)
      case Some(input) => SignatureFor(job.q, job.q.steps[i], input) != signature
      case None => true
    ensures GetWork(Complete(job, c).client, job.q.scope, job.q.w.id, job.q.steps[i].id, signature)
      == GetWork(c, job.q.scope, job.q.w.id, job.q.steps[i].id, signature)
  {
    hide ExecuteStep, StepInput, SignatureFor, LookupPreview, PlanOf;
    var n, step, start := |job.q.steps|, job.q.steps[i], WithPlan(c, job.q);
    var key := WorkKey(job.q.scope, job.q.w.id, step.id, signature);
    OtherWorkKeys(job, i, key);
    LaterKeysUntouched(job, start, 0, i, key);
    DecisionsTell(job, start, i);
    DecisionStands(job, start, i);
    StepTells(job, After(job, start, i), step);
    EarlierStepsStand(job, start, i, i);
    StepWritesItsSignature(job, After(job, start, i), step, signature);
    LaterKeysUntouched(job, start, i + 1, n, key);
    assert SameEntity(c, start, key);
  }

  /** A step whose bindings changed is not served by the first run's work.  It asks for another signature than the
      first run did, and what it reuses, if anything, was in the store before the first run. */
  lemma ChangedBindingIsNotServed(first: Job, c: Client, second: Job, i: nat)
    requires SameSteps(first.q, second.q) && Sequenced(first.q.steps) && i < |first.q.steps|
    requires WellNamed(Fields(first.q.steps[i].bind))
    requires DependencySet(first.q.steps[i]) <= Complete(first, c).outputs.Keys
    requires !MissesInput(first.q, first.q.steps[i])
    requires var mid := Complete(first, c).client;
      BindsOther(first.q.steps[i], first.q.inputs, Complete(first, c).outputs,
        second.q.inputs, Complete(second, mid).outputs)
    ensures var mid := Complete(first, c).client;
      && |Complete(first, c).decisions| == |Complete(second, mid).decisions| == |first.q.steps|
      && var d, e := Complete(first, c).decisions[i], Complete(second, mid).decisions[i];
      && d.signature.Some? && d.signature != e.signature
      && (e.decision == Reuse ==>
        && e.signature.Some?
        && GetWork(c, first.q.scope, first.q.w.id, first.q.steps[i].id, e.signature.value).Some?)
  {
    hide ExecuteStep, After, WithPlan, StepInput, SignatureFor, Usable, MissesInput, BindsOther;
    var mid, step := Complete(first, c).client, first.q.steps[i];
    var start, again := WithPlan(c, first.q), WithPlan(mid, second.q);
    DecisionsTell(first, start, i);
    DecisionsTell(second, again, i);
    KnownWhenAllThere(first, start, i);
    OtherBindingsOtherInput(step, first.q.inputs, Complete(first, c).outputs, second.q.inputs,
      Complete(second, mid).outputs);
    var e := Complete(second, mid).decisions[i];
    if e.signature.Some? {
      DifferentInputsSignDifferently(first.q, second.q, step, FinalInput(first, start, i).value, e.input.value);
    }
    if e.decision == Reuse {
      LookupAtRequest(second, mid, i, e.signature.value);
      RunWritesItsSignature(first, c, i, e.signature.value);
    }
  }

  lemma KnownWhenAllThere(job: Job, c: Client, i: nat)
    requires Sequenced(job.q.steps) && i < |job.q.steps|
    requires FinalOf(job, c).outputs.Keys >= DependencySet(job.q.steps[i]) && !MissesInput(job.q, job.q.steps[i])
    ensures FinalInput(job, c, i).Some?
  {
    hide ExecuteStep, StepInput;
    StepsAreAccountedFor(job, c, |job.q.steps|);
    DependenciesAreFinal(job, c, i);
    DoneMonotone(job, i, |job.q.steps|);
    InputMissingWhen(job.q, FinalOf(job, c), job.q.steps[i], Done(job, |job.q.steps|));
  }

  lemma DifferentInputsSignDifferently(a: Query, b: Query, step: Step, x: Value, y: Value)
    requires SameSteps(a, b) && x != y
    ensures SignatureFor(a, step, x) != SignatureFor(b, step, y)
  {
    hide InputPayload;
    if SignatureFor(a, step, x) == SignatureFor(b, step, y) {
      SignatureIdentifiesInput(a.scope, a.w.id, a.w.version, step.id, step.implementationId, x,
        b.scope, b.w.id, b.w.version, step.id, step.implementationId, y);
      assert false;
    }
  }

  // ----- nothing changed ------------------------------------------------------------------

  lemma NothingReachedWithoutChanges(steps: seq<Step>, step: Step)
    ensures !Reached(steps, {}, step)
  {
  }

  lemma {:induction false} AllReusedCostsNothing(decisions: seq<StepDecision>)
    requires forall i :: 0 <= i < |decisions| ==> decisions[i].decision == Reuse
    ensures Reruns(decisions) == [] && CostSummary(decisions) == Some(0)
  {
    if decisions != [] {
      AllReusedCostsNothing(decisions[..|decisions| - 1]);
    }
  }

  lemma {:induction false} UnknownStaysUnknown(decisions: seq<StepDecision>)
    ensures CostSummary(decisions).Some? <==>
      forall i :: 0 <= i < |decisions| && decisions[i].decision == Rerun ==> Amount(decisions[i]).Some?
  {
    hide Amount;
    if decisions != [] {
      var n := |decisions| - 1;
      UnknownStaysUnknown(decisions[..n]);
      var before, last := Reruns(decisions[..n]), decisions[n];
      if last.decision == Rerun {
        assert Reruns(decisions)[|before|] == last;
        assert forall i :: 0 <= i < |before| ==> Reruns(decisions)[i] == before[i];
      }
    }
  }

  /** The cost is known exactly when that of every step that ran is, and then each of these adds its amount. */
  lemma CostAddsUp(decisions: seq<StepDecision>, last: StepDecision)
    ensures CostSummary([]) == Some(0)
    ensures CostSummary(decisions).Some? <==>
      forall i :: 0 <= i < |decisions| && decisions[i].decision == Rerun ==> Amount(decisions[i]).Some?
    ensures CostSummary(decisions + [last]).Some? ==>
      && CostSummary(decisions).Some?
      && CostSummary(decisions + [last]).value
        == CostSummary(decisions).value + if last.decision == Rerun then Amount(last).value else 0
  {
    hide Amount;
    var all := decisions + [last];
    assert all[..|decisions|] == decisions;
    UnknownStaysUnknown(decisions);
    UnknownStaysUnknown(all);
    if CostSummary(all).Some? {
      forall i | 0 <= i < |decisions| && decisions[i].decision == Rerun ensures Amount(decisions[i]).Some? {
        assert all[i] == decisions[i];
      }
      if last.decision == Rerun {
        var before := Reruns(decisions);
        assert all[|decisions|] == last && Reruns(all) == before + [last];
        assert Reruns(all)[..|before|] == before && Reruns(all)[|before|] == last;
      }
    }
  }

  /** Repeating a request reuses every step, starts no attempt and costs nothing. */
  lemma UnchangedRequestReusesEverything(first: Job, c: Client, second: Job)
    requires SameSteps(first.q, second.q) && Sequenced(first.q.steps) && first.q.inputs == second.q.inputs
    requires AllProduced(first.q.steps, Complete(first, c))
    requires forall i :: 0 <= i < |first.q.steps| ==> StillFresh(first, c, i, second.q.now)
    ensures var done := Complete(second, Complete(first, c).client);
      && |done.decisions| == |first.q.steps|
      && (forall i :: 0 <= i < |first.q.steps| ==> done.decisions[i].decision == Reuse)
      && done.attempts == [] && CostSummary(done.decisions) == Some(0)
  {
    hide After, WithPlan, Reached, StillFresh, AllProduced;
    var steps, done := first.q.steps, Complete(second, Complete(first, c).client);
    forall i | 0 <= i < |steps| ensures !Reached(steps, {}, steps[i]) {
      NothingReachedWithoutChanges(steps, steps[i]);
    }
    UnreachedAgree(first, c, second, {}, |steps|);
    StepsAreAccountedFor(second, WithPlan(Complete(first, c).client, second.q), |steps|);
    AllReusedCostsNothing(done.decisions);
  }
}
