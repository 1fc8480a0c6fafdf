/** What a run keeps track of: every step ends in exactly one place, waiting is explained by what is missing,
    later steps never disturb earlier ones, and every attempt ends with its head released. */
module EngineLaws {
  import opened Options
  import opened Json
  import opened Topology
  import opened Types
  import opened Core
  import opened Store
  import opened Planning
  import opened Engine

  /** Attempt identifiers are drawn fresh: distinct within the run and unused in the store. */
  ghost predicate FreshIds(job: Job, c: Client) {
    && (forall i :: 0 <= i < |job.q.steps| ==> AttemptKey(job.q.scope, job.newId(job.q.steps[i].id)) !in c.entities)
    && (forall i, j :: 0 <= i < j < |job.q.steps| ==>
      job.newId(job.q.steps[i].id) != job.newId(job.q.steps[j].id))
  }

  // ----- one step -------------------------------------------------------------------------

  /** The entities a step may write. */
  ghost predicate OwnKey(job: Job, step: Step, k: Key) {
    || k == AttemptKey(job.q.scope, job.newId(step.id))
    || (k.WorkKey? && k.scope == job.q.scope && k.workflowId == job.q.w.id && k.stepId == step.id)
  }

  ghost predicate SameEntity(a: Client, b: Client, k: Key) {
    (k in a.entities <==> k in b.entities) && (k in a.entities ==> a.entities[k] == b.entities[k])
  }

  ghost predicate SameHead(a: Client, b: Client, s: Slot) {
    (s in a.heads <==> s in b.heads) && (s in a.heads ==> a.heads[s] == b.heads[s])
  }

  ghost predicate StepFrame(job: Job, step: Step, a: Client, b: Client) {
    && (forall k :: !OwnKey(job, step, k) ==> SameEntity(a, b, k))
    && (forall s :: s != Slot(job.q.scope, step.id) ==> SameHead(a, b, s))
  }

  lemma RunTouchesOwnKeys(job: Job, p: Progress, step: Step, input: Value, signature: Signature)
    ensures StepFrame(job, step, p.client, RunStep(job, p, step, input, signature).client)
  {
    hide Executed, OutputSignature, FreshUntil, ProvenanceFor;
  }

  lemma StepTouchesOwnKeys(job: Job, p: Progress, step: Step)
    ensures StepFrame(job, step, p.client, ExecuteStep(job, p, step).client)
  {
    hide RunStep, SignatureFor, StepInput, ActiveAttempt, Reusable;
    var resolved := StepInput(step, job.q.inputs, p.outputs);
    if resolved.Some? {
      RunTouchesOwnKeys(job, p, step, resolved.value, SignatureFor(job.q, step, resolved.value));
    }
  }

  /** A step ends as an output, a failure or a block, and reports one decision. */
  ghost predicate Advances(p: Progress, p': Progress, id: string) {
    && |p'.decisions| == |p.decisions| + 1
    && p'.decisions[..|p.decisions|] == p.decisions
    && p'.decisions[|p.decisions|].stepId == id
    && ( || (id in p'.outputs && p'.outputs == p.outputs[id := p'.outputs[id]]
             && p'.failed == p.failed && p'.blocked == p.blocked)
         || (p'.outputs == p.outputs && p'.failed == p.failed + {id} && p'.blocked == p.blocked)
         || (p'.outputs == p.outputs && p'.failed == p.failed && p'.blocked == p.blocked + {id}))
  }

  lemma StepAdvances(job: Job, p: Progress, step: Step)
    ensures Advances(p, ExecuteStep(job, p, step), step.id)
  {
    hide SignatureFor, Reusable, StepInput, ActiveAttempt, Executed, ResultOf, NewAttempt, Begin, Finish, Put;
  }

  // ----- a whole run ----------------------------------------------------------------------

  function Done(job: Job, k: nat): set<string>
    requires k <= |job.q.steps|
  {
    SetOf(Ids(job.q.steps[..k]))
  }

  lemma DoneGrows(job: Job, k: nat)
    requires k < |job.q.steps|
    ensures Done(job, k + 1) == Done(job, k) + {job.q.steps[k].id}
    ensures Sequenced(job.q.steps) ==> job.q.steps[k].id !in Done(job, k)
  {
    var steps := job.q.steps;
    assert Ids(steps[..k + 1]) == Ids(steps[..k]) + [steps[k].id];
  }

  /** Processed steps are partitioned into outputs, failed and blocked; decisions follow the order. */
  ghost predicate Accounted(job: Job, p: Progress, k: nat)
    requires k <= |job.q.steps|
  {
    && p.outputs.Keys + p.failed + p.blocked == Done(job, k)
    && p.outputs.Keys !! p.failed && p.outputs.Keys !! p.blocked && p.failed !! p.blocked
    && |p.decisions| == k
    && forall i :: 0 <= i < k ==> p.decisions[i].stepId == job.q.steps[i].id
  }

  lemma {:induction false} StepsAreAccountedFor(job: Job, c: Client, k: nat)
    requires Sequenced(job.q.steps) && k <= |job.q.steps|
    ensures Accounted(job, After(job, c, k), k)
    ensures |After(job, c, k).decisions| == k && After(job, c, k).outputs.Keys <= Done(job, k)
  {
    hide ExecuteStep, Advances, Done, Accounted;
    if k > 0 {
      StepsAreAccountedFor(job, c, k - 1);
      StepAdvances(job, After(job, c, k - 1), job.q.steps[k - 1]);
      DoneGrows(job, k - 1);
      AccountOneMore(job, After(job, c, k - 1), After(job, c, k), k - 1);
    } else {
      NothingToAccount(job, c);
    }
    AccountedMeans(job, After(job, c, k), k);
  }

  lemma NothingToAccount(job: Job, c: Client)
    ensures Accounted(job, After(job, c, 0), 0)
  {
  }

  lemma AccountedMeans(job: Job, p: Progress, k: nat)
    requires k <= |job.q.steps| && Accounted(job, p, k)
    ensures |p.decisions| == k && p.outputs.Keys <= Done(job, k)
  {
  }

  lemma AccountOneMore(job: Job, p: Progress, p': Progress, k: nat)
    requires k < |job.q.steps| && Accounted(job, p, k) && Advances(p, p', job.q.steps[k].id)
    requires Done(job, k + 1) == Done(job, k) + {job.q.steps[k].id} && job.q.steps[k].id !in Done(job, k)
    ensures Accounted(job, p', k + 1)
  {
    forall i | 0 <= i < k + 1 ensures p'.decisions[i].stepId == job.q.steps[i].id {
      if i < k { assert p'.decisions[i] == p'.decisions[..k][i]; }
    }
  }

  /** What the run has settled after `k` steps stays settled. */
  ghost predicate Stands(p: Progress, p': Progress, done: set<string>) {
    && Extends(p.outputs, p'.outputs)
    && (forall s :: s in done ==> (s in p'.outputs <==> s in p.outputs))
    && |p.decisions| <= |p'.decisions| && p'.decisions[..|p.decisions|] == p.decisions
  }

  lemma NextStepStands(p: Progress, p': Progress, done: set<string>, id: string)
    requires Advances(p, p', id) && id !in done && p.outputs.Keys <= done
    ensures Stands(p, p', done)
  {
  }

  lemma StandsThenStands(p: Progress, p': Progress, p'': Progress, done: set<string>, more: set<string>)
    requires Stands(p, p', done) && Stands(p', p'', more) && done <= more
    ensures Stands(p, p'', done)
  {
    assert p''.decisions[..|p.decisions|] == p''.decisions[..|p'.decisions|][..|p.decisions|];
  }

  /** Later steps leave the outputs and decisions of earlier steps alone. */
  lemma {:induction false} EarlierStepsStand(job: Job, c: Client, k: nat, m: nat)
    requires Sequenced(job.q.steps) && k <= m <= |job.q.steps|
    ensures Stands(After(job, c, k), After(job, c, m), Done(job, k))
    ensures |After(job, c, k).decisions| == k && |After(job, c, m).decisions| == m
    decreases m
  {
    hide ExecuteStep, Accounted, Advances, Done;
    StepsAreAccountedFor(job, c, k);
    StepsAreAccountedFor(job, c, m);
    if k == m {
      assert After(job, c, k).decisions[..k] == After(job, c, k).decisions;
    } else {
      EarlierStepsStand(job, c, k, m - 1);
      StepsAreAccountedFor(job, c, m - 1);
      StepAdvances(job, After(job, c, m - 1), job.q.steps[m - 1]);
      DoneGrows(job, m - 1);
      DoneMonotone(job, k, m - 1);
      NextStepStands(After(job, c, m - 1), After(job, c, m), Done(job, m - 1), job.q.steps[m - 1].id);
      StandsThenStands(After(job, c, k), After(job, c, m - 1), After(job, c, m), Done(job, k), Done(job, m - 1));
    }
  }

  lemma DoneMonotone(job: Job, k: nat, m: nat)
    requires k <= m <= |job.q.steps|
    ensures Done(job, k) <= Done(job, m)
  {
    forall s | s in Done(job, k) ensures s in Done(job, m) {
      var i :| 0 <= i < k && Ids(job.q.steps[..k])[i] == s;
      assert Ids(job.q.steps[..m])[i] == s;
    }
  }

  /** The entities and heads owned by steps not yet processed are as they were. */
  lemma {:induction false} LaterKeysUntouched(job: Job, c: Client, k: nat, m: nat, key: Key)
    requires k <= m <= |job.q.steps|
    requires forall i :: k <= i < m ==> !OwnKey(job, job.q.steps[i], key)
    ensures SameEntity(After(job, c, k).client, After(job, c, m).client, key)
    decreases m
  {
    hide ExecuteStep;
    if k < m {
      LaterKeysUntouched(job, c, k, m - 1, key);
      StepTouchesOwnKeys(job, After(job, c, m - 1), job.q.steps[m - 1]);
      assert SameEntity(After(job, c, m - 1).client, After(job, c, m).client, key);
    }
  }

  lemma {:induction false} LaterHeadsUntouched(job: Job, c: Client, k: nat, m: nat, s: Slot)
    requires k <= m <= |job.q.steps|
    requires forall i :: k <= i < m ==> s != Slot(job.q.scope, job.q.steps[i].id)
    ensures SameHead(After(job, c, k).client, After(job, c, m).client, s)
    decreases m
  {
    hide ExecuteStep;
    if k < m {
      LaterHeadsUntouched(job, c, k, m - 1, s);
      StepTouchesOwnKeys(job, After(job, c, m - 1), job.q.steps[m - 1]);
      assert SameHead(After(job, c, m - 1).client, After(job, c, m).client, s);
    }
  }

  /** Neither a step of the run nor its plan owns the key. */
  ghost predicate Outside(job: Job, c: Client, k: Key) {
    && k != PlanKey(job.q.scope, PlanOf(job.q, LookupPreview(c, job.q, |job.q.steps|).decisions).planId)
    && forall i :: 0 <= i < |job.q.steps| ==> !OwnKey(job, job.q.steps[i], k)
  }

  /** A whole run changes nothing but its plan and the attempts, results and heads of its own steps: every other record
      and every other head, of this project or another, is as it was. */
  lemma RunsTouchOwnSteps(job: Job, c: Client)
    ensures forall k :: Outside(job, c, k) ==> SameEntity(c, Complete(job, c).client, k)
    ensures forall s: Slot :: (forall i :: 0 <= i < |job.q.steps| ==> s != Slot(job.q.scope, job.q.steps[i].id)) ==>
      SameHead(c, Complete(job, c).client, s)
  {
    hide After, OwnKey, LookupPreview, PlanOf;
    var start, n := WithPlan(c, job.q), |job.q.steps|;
    AtFirst(job, start);
    forall k | Outside(job, c, k) ensures SameEntity(c, Complete(job, c).client, k) {
      LaterKeysUntouched(job, start, 0, n, k);
      PlanKeyIs(job, c);
      assert SameEntity(c, start, k);
    }
    forall s: Slot | forall i :: 0 <= i < n ==> s != Slot(job.q.scope, job.q.steps[i].id)
      ensures SameHead(c, Complete(job, c).client, s)
    {
      LaterHeadsUntouched(job, start, 0, n, s);
      assert SameHead(c, start, s);
    }
  }

  lemma AtFirst(job: Job, c: Client)
    ensures After(job, c, 0) == Progress(c, map[], {}, {}, [], [])
  {
  }

  lemma PlanKeyIs(job: Job, c: Client)
    ensures var plan := PlanOf(job.q, LookupPreview(c, job.q, |job.q.steps|).decisions);
      plan.scope == job.q.scope && KeyOf(PlanRecord(plan)) == PlanKey(job.q.scope, plan.planId)
  {
  }

  /** Another step's work record is never this step's. */
  lemma OtherWorkKeys(job: Job, i: nat, key: Key)
    requires Sequenced(job.q.steps) && i < |job.q.steps| && key.WorkKey? && key.stepId == job.q.steps[i].id
    ensures forall j :: 0 <= j < |job.q.steps| && j != i ==> !OwnKey(job, job.q.steps[j], key)
  {
  }

  // ----- waiting --------------------------------------------------------------------------

  function FinalOf(job: Job, c: Client): Progress {
    After(job, c, |job.q.steps|)
  }

  /** At the i-th step, its dependencies already have their final outcome. */
  lemma DependenciesAreFinal(job: Job, c: Client, i: nat)
    requires Sequenced(job.q.steps) && i < |job.q.steps|
    ensures forall d :: d in DependencySet(job.q.steps[i]) ==>
      d in Done(job, i) && (d in After(job, c, i).outputs <==> d in FinalOf(job, c).outputs)
  {
    hide ExecuteStep;
    EarlierStepsStand(job, c, i, |job.q.steps|);
  }

  lemma DecisionStands(job: Job, c: Client, i: nat)
    requires Sequenced(job.q.steps) && i < |job.q.steps|
    ensures |FinalOf(job, c).decisions| == |job.q.steps|
    ensures |After(job, c, i + 1).decisions| == i + 1
    ensures FinalOf(job, c).decisions[i] == After(job, c, i + 1).decisions[i]
  {
    hide ExecuteStep;
    EarlierStepsStand(job, c, i + 1, |job.q.steps|);
    assert FinalOf(job, c).decisions[i] == FinalOf(job, c).decisions[..i + 1][i];
  }

  /** A step is reported as blocked by a dependency exactly when a direct dependency ended without an output,
      and as waiting for an unknown output exactly when all of them have one and an input it binds was not
      supplied. */
  lemma WaitingIsExplained(job: Job, c: Client, i: nat)
    requires Sequenced(job.q.steps) && i < |job.q.steps|
    ensures |FinalOf(job, c).decisions| == |job.q.steps|
    ensures var step, reason := job.q.steps[i], FinalOf(job, c).decisions[i].reason;
      && (reason == "DEPENDENCY_FAILED" <==> !(DependencySet(step) <= FinalOf(job, c).outputs.Keys))
      && (reason == "DEPENDENCY_OUTPUT_UNKNOWN" <==>
        DependencySet(step) <= FinalOf(job, c).outputs.Keys && MissesInput(job.q, step))
  {
    hide ExecuteStep;
    var step, p := job.q.steps[i], After(job, c, i);
    DecisionStands(job, c, i);
    DependenciesAreFinal(job, c, i);
    StepsAreAccountedFor(job, c, i);
    StepReason(job, p, step);
    InputMissingWhen(job.q, p, step, Done(job, i));
    assert DependencySet(step) <= FinalOf(job, c).outputs.Keys <==> DependencySet(step) <= p.outputs.Keys;
  }

  /** The input of a step is unknown when a dependency has no output or an input is missing. */
  lemma InputMissingWhen(q: Query, p: Progress, step: Step, done: set<string>)
    requires p.outputs.Keys + p.failed + p.blocked == done && DependencySet(step) <= done
    requires p.outputs.Keys !! p.failed && p.outputs.Keys !! p.blocked
    ensures DependencySet(step) * (p.failed + p.blocked) == {} <==> DependencySet(step) <= p.outputs.Keys
    ensures StepInput(step, q.inputs, p.outputs).None? <==>
      !(DependencySet(step) <= p.outputs.Keys) || MissesInput(q, step)
  {
    hide StepInput, MissesInput;
    InputKnownExactly(q, step, p.outputs);
    if !(DependencySet(step) <= p.outputs.Keys) {
      var d :| d in DependencySet(step) && d !in p.outputs;
      assert d in DependencySet(step) * (p.failed + p.blocked);
    }
  }

  lemma StepReason(job: Job, p: Progress, step: Step)
    ensures var p' := ExecuteStep(job, p, step);
      |p'.decisions| == |p.decisions| + 1 &&
      var reason := p'.decisions[|p.decisions|].reason;
      if StepInput(step, job.q.inputs, p.outputs).Some? then
        reason != "DEPENDENCY_FAILED" && reason != "DEPENDENCY_OUTPUT_UNKNOWN"
      else
        reason == if DependencySet(step) * (p.failed + p.blocked) != {} then "DEPENDENCY_FAILED"
          else "DEPENDENCY_OUTPUT_UNKNOWN"
  {
    hide SignatureFor, Reusable, StepInput, ActiveAttempt, Executed, ResultOf, NewAttempt, Begin, Finish, Put;
  }

  /** A chain of declared dependencies among the steps of a run. */
  ghost predicate StepChain(steps: seq<Step>, p: seq<Step>) {
    && |p| > 0 && (forall i :: 0 <= i < |p| ==> p[i] in steps)
    && forall i :: 0 < i < |p| ==> p[i - 1].id in DependencySet(p[i])
  }

  lemma StepNeedsInput(job: Job, p: Progress, step: Step)
    requires step.id !in p.outputs && step.id in ExecuteStep(job, p, step).outputs
    ensures StepInput(step, job.q.inputs, p.outputs).Some?
  {
    hide SignatureFor, Reusable, StepInput, ActiveAttempt, Executed, ResultOf, NewAttempt, Begin, Finish, Put;
  }

  lemma OutputNeedsDependencies(job: Job, c: Client, i: nat)
    requires Sequenced(job.q.steps) && i < |job.q.steps|
    requires job.q.steps[i].id in FinalOf(job, c).outputs
    ensures DependencySet(job.q.steps[i]) <= FinalOf(job, c).outputs.Keys
    ensures !MissesInput(job.q, job.q.steps[i])
  {
    hide ExecuteStep;
    var step, p := job.q.steps[i], After(job, c, i);
    EarlierStepsStand(job, c, i + 1, |job.q.steps|);
    DoneGrows(job, i);
    StepsAreAccountedFor(job, c, i);
    StepNeedsInput(job, p, step);
    StepInputNeedsRefs(step, job.q.inputs, p.outputs);
    DependenciesAreFinal(job, c, i);
    forall d | d in DependencySet(step) ensures d in p.outputs {
      assert Core.Lookup(Out(d), job.q.inputs, p.outputs).Some?;
    }
    forall name | In(name) in Refs(step) ensures name in job.q.inputs {
      assert Core.Lookup(In(name), job.q.inputs, p.outputs).Some?;
    }
  }

  /** A step downstream of one without an output never gets one. */
  lemma {:induction false} NothingDownstreamOfAMissingOutput(job: Job, c: Client, p: seq<Step>)
    requires Sequenced(job.q.steps) && StepChain(job.q.steps, p)
    requires p[|p| - 1].id in FinalOf(job, c).outputs
    ensures forall i :: 0 <= i < |p| ==> p[i].id in FinalOf(job, c).outputs
  {
    hide ExecuteStep;
    if |p| > 1 {
      var last := p[|p| - 1];
      var i :| 0 <= i < |job.q.steps| && job.q.steps[i] == last;
      OutputNeedsDependencies(job, c, i);
      NothingDownstreamOfAMissingOutput(job, c, p[..|p| - 1]);
    }
  }

  // ----- attempts -------------------------------------------------------------------------

  predicate Terminal(s: Status) {
    s == Succeeded || s == Failed
  }

  /** What an attempt leaves behind: its terminal record, a released head, and a matching decision. */
  ghost predicate Ended(job: Job, p: Progress, i: nat)
    requires i < |job.q.steps| && i < |p.decisions|
  {
    var step, reason := job.q.steps[i], p.decisions[i].reason;
    (reason == "EXECUTED_SUCCESSFULLY" || reason == "EXECUTION_FAILED") ==>
      && var a := GetAttempt(p.client, job.q.scope, job.newId(step.id));
      && a.Some? && a.value in p.attempts
      && a.value.stepId == step.id
      && a.value.status == (if reason == "EXECUTED_SUCCESSFULLY" then Succeeded else Failed)
      && Head(p.client, job.q.scope, step.id) == None
  }

  /** How one step ends its attempt, if it makes one. */
  ghost predicate EndsNow(job: Job, p: Progress, p': Progress, step: Step) {
    && |p'.decisions| == |p.decisions| + 1
    && var reason := p'.decisions[|p.decisions|].reason;
    if reason == "EXECUTED_SUCCESSFULLY" || reason == "EXECUTION_FAILED" then
      && var a := GetAttempt(p'.client, job.q.scope, job.newId(step.id));
      && a.Some? && p'.attempts == p.attempts + [a.value]
      && a.value.stepId == step.id && a.value.attemptId == job.newId(step.id)
      && a.value.status == (if reason == "EXECUTED_SUCCESSFULLY" then Succeeded else Failed)
      && Head(p'.client, job.q.scope, step.id) == None
    else p'.attempts == p.attempts && p'.client == p.client
  }

  lemma RunEnds(job: Job, p: Progress, step: Step, input: Value, signature: Signature)
    ensures EndsNow(job, p, RunStep(job, p, step, input, signature), step)
  {
    hide Executed, ResultOf;
  }

  lemma StepEnds(job: Job, p: Progress, step: Step)
    ensures EndsNow(job, p, ExecuteStep(job, p, step), step)
  {
    hide RunStep, SignatureFor, StepInput, ActiveAttempt, Reusable, GetAttempt, Head;
    var resolved := StepInput(step, job.q.inputs, p.outputs);
    if resolved.Some? {
      RunEnds(job, p, step, resolved.value, SignatureFor(job.q, step, resolved.value));
    }
  }

  /** Every executor call of a run leaves a terminal attempt and a released head. */
  lemma {:induction false} AttemptsEnd(job: Job, c: Client, k: nat, i: nat)
    requires Sequenced(job.q.steps) && FreshIds(job, c) && i < k <= |job.q.steps|
    ensures |After(job, c, k).decisions| == k && Ended(job, After(job, c, k), i)
    decreases k
  {
    hide ExecuteStep, Accounted, Advances, StepFrame, Done;
    var p, p', step := After(job, c, k - 1), After(job, c, k), job.q.steps[k - 1];
    StepsAreAccountedFor(job, c, k - 1);
    StepsAreAccountedFor(job, c, k);
    StepEnds(job, p, step);
    if i < k - 1 {
      AttemptsEnd(job, c, k - 1, i);
      StepAdvances(job, p, step);
      StepTouchesOwnKeys(job, p, step);
      EndedStands(job, p, p', i, step);
    }
  }

  lemma EndedStands(job: Job, p: Progress, p': Progress, i: nat, step: Step)
    requires i < |job.q.steps| && i < |p.decisions| && Ended(job, p, i)
    requires Advances(p, p', step.id) && StepFrame(job, step, p.client, p'.client)
    requires step.id != job.q.steps[i].id && job.newId(step.id) != job.newId(job.q.steps[i].id)
    requires forall a :: a in p.attempts ==> a in p'.attempts
    ensures Ended(job, p', i)
  {
    assert p'.decisions[i] == p'.decisions[..|p.decisions|][i];
    assert SameEntity(p.client, p'.client, AttemptKey(job.q.scope, job.newId(job.q.steps[i].id)));
    assert SameHead(p.client, p'.client, Slot(job.q.scope, job.q.steps[i].id));
  }

  ghost predicate MadeBy(job: Job, decisions: seq<StepDecision>, a: Attempt, i: nat)
    requires i < |job.q.steps| && i < |decisions|
  {
    && a.stepId == job.q.steps[i].id && a.attemptId == job.newId(job.q.steps[i].id)
    && (decisions[i].reason == "EXECUTED_SUCCESSFULLY" || decisions[i].reason == "EXECUTION_FAILED")
  }

  /** Conversely, every attempt of the report was made by one of the steps the run executed. */
  lemma {:induction false} AttemptsComeFromSteps(job: Job, c: Client, k: nat)
    requires Sequenced(job.q.steps) && k <= |job.q.steps|
    ensures |After(job, c, k).decisions| == k
    ensures forall a :: a in After(job, c, k).attempts ==>
      exists i :: 0 <= i < k && MadeBy(job, After(job, c, k).decisions, a, i)
  {
    hide ExecuteStep;
    StepsAreAccountedFor(job, c, k);
    if k > 0 {
      AttemptsComeFromSteps(job, c, k - 1);
      var p, p' := After(job, c, k - 1), After(job, c, k);
      StepEnds(job, p, job.q.steps[k - 1]);
      StepAdvances(job, p, job.q.steps[k - 1]);
      StepsAreAccountedFor(job, c, k - 1);
      forall a | a in p'.attempts
        ensures exists i :: 0 <= i < k && MadeBy(job, p'.decisions, a, i)
      {
        if a in p.attempts {
          var i :| 0 <= i < k - 1 && MadeBy(job, p.decisions, a, i);
          assert p'.decisions[i] == p'.decisions[..k - 1][i];
          assert MadeBy(job, p'.decisions, a, i);
        } else {
          assert MadeBy(job, p'.decisions, a, k - 1);
        }
      }
    }
  }
}
