/** One run of the service: where gate and engine agree, where they do not, and what the receipt proves. */
module ServiceLaws {
  import opened Options
  import opened Json
  import opened Types
  import opened HandoffTypes
  import opened Core
  import opened Store
  import opened Planning
  import opened Engine
  import opened EngineLaws
  import opened ReuseLaws
  import opened Gate
  import opened GateLaws
  import opened Service

  /** The gate judged the store `c`; the engine started from `start`, after the handoff papers were saved. */
  ghost predicate Joined(d: Desk, job: Job, c: Client, start: Client) {
    && d.q == job.q && Sequenced(job.q.steps) && Consistent(c)
    && d.index == IndexOf(c, job.q.scope, job.q.w.id) && OnlyPapers(c, start)
  }

  /** Every run of the service joins its gate and its engine in this way. */
  lemma ServiceRunsAreJoined(request: Request, now: int, recipient: Principal, policies: PolicySet, order: DigestOrder,
    c: Client, e: Evaluation, compute: (string, Value) -> Option<Value>, fails: set<string>, newId: string -> string)
    requires Accepted(request) && Consistent(c)
    ensures Joined(DeskOf(request, now, recipient, policies, c, request.scope, order),
      ServiceJob(QueryOf(request, now), recipient, compute, fails, newId),
      c, WithHandoff(c, e, recipient, request.scope, now))
  {
    hide Sequenced, Ordered, Normalized, ValidWorkflow, ValidInputs, WithHandoff, Consistent, OnlyPapers, IndexOf,
      DamagedSteps;
    OrderedIsSequenced(request.workflow);
    HandoffKeepsStore(c, e, recipient, request.scope, now);
  }

  // ----- one record -----------------------------------------------------------------------

  lemma ValidExactlyWhenMatching(d: Desk, step: Step, signature: Signature, r: WorkResult, matched: bool)
    ensures ValidityOf(d, step, signature, r, matched).status == Valid <==>
      matched && Matches(r, d.q.scope, d.q.w, step, signature, d.q.now)
  {
    hide IsFresh, ArtifactUsable;
  }

  /** The validity verdict of a step whose input is known says whether the keyed record matches. */
  lemma JudgedValidity(d: Desk, outputs: map<string, Value>, step: Step)
    requires StepInput(step, d.q.inputs, outputs).Some?
    ensures var signature := SignatureFor(d.q, step, StepInput(step, d.q.inputs, outputs).value);
      var found := Exact(d.index, step.id, signature);
      Judge(d, outputs, step).decision.verdicts.validity.status == Valid <==>
        found.Some? && Usable(d.q, step, signature, found.value)
  {
    hide StepInput, SignatureFor, Latest, ValidityOf, TrustOf, AuthorizationOf, Decide, Matches;
    var signature := SignatureFor(d.q, step, StepInput(step, d.q.inputs, outputs).value);
    var exact, latest := Exact(d.index, step.id, signature), Latest(d.order, d.index, step.id);
    if exact.Some? {
      ValidExactlyWhenMatching(d, step, signature, exact.value, true);
    } else if latest.Some? {
      ValidExactlyWhenMatching(d, step, signature, latest.value, false);
    }
  }

  /** During its run the engine finds the record that the gate found. */
  lemma EngineFindsTheSame(d: Desk, job: Job, c: Client, start: Client, i: nat, signature: Signature)
    requires Joined(d, job, c, start) && i < |job.q.steps|
    ensures var step := job.q.steps[i];
      var found := Exact(d.index, step.id, signature);
      Reusable(After(job, WithPlan(start, job.q), i).client, job.q.scope, job.q, step, signature)
        == if found.Some? && Usable(job.q, step, signature, found.value) then found else None
  {
    hide After, WithPlan, Usable, IndexOf, Consistent;
    LookupAtRequest(job, start, i, signature);
    IndexFinds(c, job.q.scope, job.q.w.id, job.q.steps[i].id, signature);
  }

  /** With its input known, a step is decided as reuse exactly when a reusable record is found. */
  lemma ReusesExactlyWhenFound(job: Job, p: Progress, step: Step, input: Value)
    requires StepInput(step, job.q.inputs, p.outputs) == Some(input)
    ensures var p' := ExecuteStep(job, p, step);
      var r := Reusable(p.client, job.q.scope, job.q, step, SignatureFor(job.q, step, input));
      && |p'.decisions| == |p.decisions| + 1
      && (p'.decisions[|p.decisions|].decision == Reuse <==> r.Some?)
      && (r.Some? ==> p'.attempts == p.attempts && step.id in p'.outputs && p'.outputs[step.id] == r.value.output)
  {
    hide StepInput, SignatureFor, Reusable, ActiveAttempt, Engine.Executed, ResultOf, NewAttempt, Begin, Finish, Put;
  }

  // ----- a whole run ----------------------------------------------------------------------

  lemma GateStep(d: Desk, job: Job, c: Client, start: Client, i: nat)
    requires Joined(d, job, c, start) && i < |job.q.steps|
    requires Extends(Sweep(d, i).outputs, After(job, WithPlan(start, job.q), i).outputs)
    requires StepInput(job.q.steps[i], job.q.inputs, Sweep(d, i).outputs).Some?
    ensures var p, p' := After(job, WithPlan(start, job.q), i), After(job, WithPlan(start, job.q), i + 1);
      var v := Judge(d, Sweep(d, i).outputs, job.q.steps[i]).decision.verdicts.validity;
      && |p'.decisions| == |p.decisions| + 1
      && (p'.decisions[|p.decisions|].decision == Reuse <==> v.status == Valid)
      && (v.status == Valid ==> p'.attempts == p.attempts)
    ensures var step := job.q.steps[i];
      var signature := SignatureFor(job.q, step, StepInput(step, job.q.inputs, Sweep(d, i).outputs).value);
      Judge(d, Sweep(d, i).outputs, step).decision.verdicts.validity.status == Valid ==>
        var p' := After(job, WithPlan(start, job.q), i + 1);
        && (step.id, signature) in d.index
        && step.id in p'.outputs && p'.outputs[step.id] == d.index[(step.id, signature)].output
  {
    hide Judge, WithPlan, ExecuteStep, StepInput, SignatureFor, Usable, Reusable, Sweep, IndexOf, Consistent;
    var step, p, outputs := job.q.steps[i], After(job, WithPlan(start, job.q), i), Sweep(d, i).outputs;
    StepInputMonotone(step, job.q.inputs, outputs, p.outputs);
    var input := StepInput(step, job.q.inputs, outputs).value;
    JudgedValidity(d, outputs, step);
    EngineFindsTheSame(d, job, c, start, i, SignatureFor(job.q, step, input));
    ReusesExactlyWhenFound(job, p, step, input);
  }

  /** Everything the gate approves, the engine outputs as well. */
  lemma {:induction false} ApprovedOutputsAppear(d: Desk, job: Job, c: Client, start: Client, k: nat)
    requires Joined(d, job, c, start) && k <= |job.q.steps|
    ensures Extends(Sweep(d, k).outputs, After(job, WithPlan(start, job.q), k).outputs)
  {
    hide Judge, ExecuteStep, StepInput, SignatureFor, WithPlan, Joined, Collect, Crosses, Approved, Approves, Advances;
    if k > 0 {
      ApprovedOutputsAppear(d, job, c, start, k - 1);
      JoinedQuery(d, job, c, start);
      var step, s := job.q.steps[k - 1], Sweep(d, k - 1);
      EarlierStepsStand(job, WithPlan(start, job.q), k - 1, k);
      ApprovedExactly(d, s.outputs, step);
      if Approved(Judge(d, s.outputs, step)) {
        ApprovedIsValid(Judge(d, s.outputs, step));
        GateStep(d, job, c, start, k - 1);
      }
      CollectedAppear(s, Judge(d, s.outputs, step), After(job, WithPlan(start, job.q), k).outputs);
    }
  }

  lemma JoinedQuery(d: Desk, job: Job, c: Client, start: Client)
    requires Joined(d, job, c, start)
    ensures d.q == job.q && Sequenced(d.q.steps)
  {
  }

  lemma ApprovedIsValid(c: Candidate)
    ensures Approves(c.decision.verdicts) ==> c.decision.verdicts.validity.status == Valid
  {
  }

  lemma CollectedAppear(s: Swept, c: Candidate, outputs: map<string, Value>)
    requires Extends(s.outputs, outputs)
    requires Approved(c) && c.result.Some? ==> c.stepId in outputs && outputs[c.stepId] == c.result.value.output
    ensures Extends(Collect(s, c).outputs, outputs)
  {
  }

  /** Wherever the gate knows a step's input, the engine reuses the step exactly when the gate's validity verdict is
      VALID, whatever the trust, authorization and external-job verdicts say.  In particular a step that the gate
      blocks although its record is valid is reused by the ungated engine: withheld work is used all the same. */
  lemma EngineReusesExactlyTheValid(d: Desk, job: Job, c: Client, start: Client, i: nat)
    requires Joined(d, job, c, start) && i < |job.q.steps|
    ensures |SweepAll(d).candidates| == |job.q.steps| == |Complete(job, start).decisions|
    ensures var g, e := SweepAll(d).candidates[i].decision, Complete(job, start).decisions[i];
      g.decision != PendingDependency ==> (e.decision == Reuse <==> g.verdicts.validity.status == Valid)
  {
    hide Judge, After, StepInput, SignatureFor, WithPlan, Joined, Sweep;
    hide Shaped, Crosses, Approves, Approved, Advances, Accounted;
    JoinedQuery(d, job, c, start);
    CandidateAt(d, i);
    EarlierStepsStand(job, WithPlan(start, job.q), i, i + 1);
    DecisionStands(job, WithPlan(start, job.q), i);
    ApprovedExactly(d, Sweep(d, i).outputs, job.q.steps[i]);
    if StepInput(job.q.steps[i], job.q.inputs, Sweep(d, i).outputs).Some? {
      ApprovedOutputsAppear(d, job, c, start, i);
      GateStep(d, job, c, start, i);
    }
  }

  lemma DecideRespectsValidity(v: Verdicts)
    ensures Decide(v).0 == Rerun ==> v.validity.status != Valid
    ensures Decide(v).0 == Reuse ==> v.validity.status == Valid
  {
  }

  /** What a decision of the gate says about its validity verdict. */
  ghost predicate Respects(d: HandoffDecision) {
    && (d.decision == Rerun ==> d.verdicts.validity.status != Valid)
    && (d.decision == Reuse ==> d.verdicts.validity.status == Valid)
  }

  lemma FoundRespects(d: Desk, step: Step, signature: Signature, r: WorkResult, matched: bool)
    ensures Respects(FoundCandidate(d, step, signature, r, matched).decision)
  {
    hide VerdictsFor, Decide;
    DecideRespectsValidity(VerdictsFor(d, step, signature, r, matched));
  }

  lemma UnfoundRespects(step: Step, signature: Signature)
    ensures Respects(PendingCandidate(step).decision)
    ensures Respects(UndecodableCandidate(step, signature).decision)
    ensures Respects(EmptyCandidate(step, signature).decision)
  {
  }

  lemma RerunIsNotValid(d: Desk, outputs: map<string, Value>, step: Step)
    ensures Respects(Judge(d, outputs, step).decision)
  {
    hide StepInput, SignatureFor, Latest, Respects;
    hide FoundCandidate, PendingCandidate, UndecodableCandidate, EmptyCandidate;
    var resolved := StepInput(step, d.q.inputs, outputs);
    UnfoundRespects(step, Signature("", ""));
    if resolved.Some? {
      var signature := SignatureFor(d.q, step, resolved.value);
      var exact, latest := Exact(d.index, step.id, signature), Latest(d.order, d.index, step.id);
      UnfoundRespects(step, signature);
      if exact.Some? { FoundRespects(d, step, signature, exact.value, true); }
      if latest.Some? { FoundRespects(d, step, signature, latest.value, false); }
    }
  }

  /** The agreement a receipt claims: what the gate reuses, the engine reuses with the identical output and without
      an executor call; what the gate reruns, the engine never reuses. */
  lemma GateAndEngineAgree(d: Desk, job: Job, c: Client, start: Client, i: nat)
    requires Joined(d, job, c, start) && i < |job.q.steps|
    ensures |SweepAll(d).candidates| == |job.q.steps| == |Complete(job, start).decisions|
    ensures var g, e, id := SweepAll(d).candidates[i].decision, Complete(job, start), job.q.steps[i].id;
      && (g.decision == Reuse ==>
          && e.decisions[i].decision == Reuse
          && id in SweepAll(d).outputs && id in e.outputs && e.outputs[id] == SweepAll(d).outputs[id]
          && After(job, WithPlan(start, job.q), i + 1).attempts == After(job, WithPlan(start, job.q), i).attempts)
      && (g.decision == Rerun ==> e.decisions[i].decision != Reuse)
  {
    hide Judge, After, StepInput, SignatureFor, WithPlan, Joined, Sweep, Shaped, Crosses, Approves, Accounted;
    JoinedQuery(d, job, c, start);
    CandidateAt(d, i);
    EngineReusesExactlyTheValid(d, job, c, start, i);
    RerunIsNotValid(d, Sweep(d, i).outputs, job.q.steps[i]);
    ApprovedExactly(d, Sweep(d, i).outputs, job.q.steps[i]);
    ReusedExactlyWhenApproved(d, i);
    ApprovedOutputsAppear(d, job, c, start, |job.q.steps|);
    if SweepAll(d).candidates[i].decision.decision == Reuse {
      ApprovedOutputsAppear(d, job, c, start, i);
      GateStep(d, job, c, start, i);
    }
  }

  // ----- the receipt ----------------------------------------------------------------------

  lemma {:induction false} DecisionForFinds(decisions: seq<StepDecision>, steps: seq<Step>, i: nat)
    requires |decisions| == |steps| && i < |steps|
    requires forall j :: 0 <= j < |steps| ==> decisions[j].stepId == steps[j].id
    requires forall j :: i < j < |steps| ==> steps[j].id != steps[i].id
    ensures DecisionFor(decisions, steps[i].id) == Some(decisions[i])
  {
    var n := |steps| - 1;
    if i < n {
      DecisionForFinds(decisions[..n], steps[..n], i);
    }
  }

  lemma {:induction false} AttemptForFinds(attempts: seq<Attempt>, a: Attempt)
    requires a in attempts
    ensures var found := AttemptFor(attempts, a.stepId);
      found.Some? && found.value in attempts && found.value.stepId == a.stepId
  {
    var n := |attempts| - 1;
    if attempts[n].stepId != a.stepId {
      assert a in attempts[..n];
      AttemptForFinds(attempts[..n], a);
    }
  }

  /** A finalized entry that reports an execution names a persisted attempt of its step, ended accordingly. */
  ghost predicate Proven(entry: ReceiptEntry, c: Client, scope: Scope) {
    entry.outcome == HandoffTypes.Executed || entry.outcome == OutcomeFailed ==>
      && entry.attemptId.Some?
      && var a := GetAttempt(c, scope, entry.attemptId.value);
      && a.Some? && a.value.stepId == entry.stepId
      && a.value.status == (if entry.outcome == HandoffTypes.Executed then Succeeded else Failed)
      && Head(c, scope, entry.stepId) == None
  }

  lemma AttemptOfStep(job: Job, c: Client, i: nat)
    requires Sequenced(job.q.steps) && FreshIds(job, c) && i < |job.q.steps|
    requires |FinalOf(job, c).decisions| == |job.q.steps|
    requires FinalOf(job, c).decisions[i].reason in {"EXECUTED_SUCCESSFULLY", "EXECUTION_FAILED"}
    ensures var step, p := job.q.steps[i], FinalOf(job, c);
      && AttemptFor(p.attempts, step.id).Some?
      && AttemptFor(p.attempts, step.id).value.attemptId == job.newId(step.id)
  {
    hide After, FreshIds, Advances;
    var n, p := |job.q.steps|, FinalOf(job, c);
    AttemptsEnd(job, c, n, i);
    AttemptsComeFromSteps(job, c, n);
    var a := GetAttempt(p.client, job.q.scope, job.newId(job.q.steps[i].id)).value;
    AttemptForFinds(p.attempts, a);
    var found := AttemptFor(p.attempts, job.q.steps[i].id).value;
    var j :| 0 <= j < n && MadeBy(job, p.decisions, found, j);
    assert i == j;
  }

  lemma EntryIsProven(job: Job, c: Client, i: nat, entry: ReceiptEntry)
    requires Sequenced(job.q.steps) && FreshIds(job, c) && i < |job.q.steps| && entry.stepId == job.q.steps[i].id
    ensures var p := FinalOf(job, c);
      Proven(Finalized(entry, p.decisions, p.attempts), p.client, job.q.scope)
  {
    hide After, FreshIds, Advances, Head, GetAttempt;
    var n, p := |job.q.steps|, FinalOf(job, c);
    StepsAreAccountedFor(job, c, n);
    DecisionForFinds(p.decisions, job.q.steps, i);
    if p.decisions[i].reason in {"EXECUTED_SUCCESSFULLY", "EXECUTION_FAILED"} {
      AttemptsEnd(job, c, n, i);
      AttemptOfStep(job, c, i);
    }
  }

  lemma PapersKeepProof(a: Client, b: Client, entry: ReceiptEntry, scope: Scope)
    requires OnlyPapers(a, b) && Proven(entry, a, scope)
    ensures Proven(entry, b, scope)
  {
  }

  lemma ClosingIsPaper(c: Client, receipt: Receipt, run: AgentRun)
    ensures OnlyPapers(c, Closed(c, receipt, run))
  {
  }

  lemma {:induction false} GuardedSweeps(d: Desk, k: nat)
    requires k <= |d.q.steps| && Guarded(d, k).Some?
    ensures Guarded(d, k).value == Sweep(d, k)
  {
    hide Judge, CandidateGuard, Collect;
    if k > 0 {
      GuardedSweeps(d, k - 1);
    }
  }

  lemma EvaluationEntries(d: Desk)
    requires Evaluated(d).Some?
    ensures Evaluated(d).value.candidates == SweepAll(d).candidates
    ensures Evaluated(d).value.receipt.entries == EntriesOf(Evaluated(d).value.candidates)
    ensures Evaluated(d).value.receipt.scope == d.q.scope && Evaluated(d).value.record.scope == d.q.scope
  {
    hide Guarded, Sweep, Sorted, RecordGuard, ContextGuard, ReceiptGuard, IdOf, EntriesOf, Counts;
    GuardedSweeps(d, |d.q.steps|);
  }

  /** Every executed or failed entry of the final receipt names a persisted attempt of that step with the matching
      status, still there when the service is done, with the step's head released. */
  lemma ReceiptIsProven(d: Desk, job: Job, c: Client, start: Client, run: AgentRun, i: nat)
    requires Joined(d, job, c, start) && Evaluated(d).Some? && i < |job.q.steps|
    requires FreshIds(job, WithPlan(start, job.q))
    ensures |Evaluated(d).value.receipt.entries| == |job.q.steps|
    ensures var done, before := Complete(job, start), Evaluated(d).value.receipt;
      var receipt := FinalReceipt(before, FinalEntries(before.entries, done.decisions, done.attempts));
      && Proven(receipt.entries[i], Closed(done.client, receipt, run), job.q.scope)
      && receipt.entries[i].stepId == job.q.steps[i].id
  {
    hide Judge, After, WithPlan, Sweep, Evaluated, FreshIds, Proven, Closed, OutcomeOf, Approves;
    JoinedQuery(d, job, c, start);
    EvaluationEntries(d);
    ReusedExactlyWhenApproved(d, i);
    CandidateAt(d, i);
    ApprovedExactly(d, Sweep(d, i).outputs, job.q.steps[i]);
    var done, before := Complete(job, start), Evaluated(d).value.receipt;
    var receipt := FinalReceipt(before, FinalEntries(before.entries, done.decisions, done.attempts));
    EntryIsProven(job, WithPlan(start, job.q), i, before.entries[i]);
    ClosingIsPaper(done.client, receipt, run);
    PapersKeepProof(done.client, Closed(done.client, receipt, run), receipt.entries[i], job.q.scope);
  }

  // ----- what a run answers and leaves behind ---------------------------------------------

  lemma NewDecision(job: Job, p: Progress, step: Step)
    ensures var p' := ExecuteStep(job, p, step);
      && |p'.decisions| == |p.decisions| + 1
      && (p'.decisions[|p.decisions|].decision == Reuse <==> p'.decisions[|p.decisions|].reason == "MATCHING_RESULT")
  {
    hide StepInput, SignatureFor, Reusable, ActiveAttempt, Engine.Executed, ResultOf, NewAttempt, Begin, Finish, Put;
  }

  /** A step that the engine reuses has no attempt in its report. */
  lemma ReusedMakesNoAttempt(job: Job, c: Client, i: nat)
    requires Sequenced(job.q.steps) && i < |job.q.steps|
    ensures |FinalOf(job, c).decisions| == |job.q.steps|
    ensures FinalOf(job, c).decisions[i].decision == Reuse ==>
      forall a :: a in FinalOf(job, c).attempts ==> a.stepId != job.q.steps[i].id
  {
    hide ExecuteStep, After;
    DecisionStands(job, c, i);
    EarlierStepsStand(job, c, i, i + 1);
    assert After(job, c, i + 1) == ExecuteStep(job, After(job, c, i), job.q.steps[i]) by { NextIs(job, c, i); }
    NewDecision(job, After(job, c, i), job.q.steps[i]);
    AttemptsComeFromSteps(job, c, |job.q.steps|);
    var p := FinalOf(job, c);
    forall a | a in p.attempts && a.stepId == job.q.steps[i].id ensures p.decisions[i].decision != Reuse {
      var j :| 0 <= j < |job.q.steps| && MadeBy(job, p.decisions, a, j);
      assert i == j;
    }
  }

  /** What the final entry of a step says, against the engine's report. */
  ghost predicate Tells(entry: ReceiptEntry, g: HandoffDecision, e: StepDecision) {
    && entry.stepId == g.stepId && entry.decision == g.decision && entry.verdicts == g.verdicts
    && entry.reason == g.reason && entry.evidence == g.evidence && entry.cost == g.cost
    && entry.outcome == (match g.decision
       case Reuse => Reused
       case Blocked => OutcomeBlocked
       case PendingDependency => OutcomePending
       case Rerun =>
         if e.reason == "EXECUTED_SUCCESSFULLY" then HandoffTypes.Executed
         else if e.reason == "EXECUTION_FAILED" then OutcomeFailed
         else NotRecorded)
    && (entry.attemptId.Some? ==> entry.outcome == HandoffTypes.Executed || entry.outcome == OutcomeFailed)
  }

  lemma FinalEntryTells(job: Job, p: Progress, g: HandoffDecision, i: nat)
    requires Sequenced(job.q.steps) && i < |job.q.steps| && Accounted(job, p, |job.q.steps|)
    requires g.stepId == job.q.steps[i].id
    ensures Tells(Finalized(EntryOf(g), p.decisions, p.attempts), g, p.decisions[i])
  {
    DecisionForFinds(p.decisions, job.q.steps, i);
  }

  ghost predicate IsKept(c: Client, r: Record)
    requires !r.Damaged?
  {
    KeyOf(r) in c.entities && c.entities[KeyOf(r)] == r
  }

  lemma {:induction false} SourcesKeepTheRecord(c: Client, h: HandoffRecord, id: HandoffId, scope: Scope, now: int,
    candidates: seq<Candidate>)
    requires IsKept(c, Handoff(h))
    ensures IsKept(WithSources(c, id, scope, now, candidates), Handoff(h))
  {
    if candidates != [] {
      SourcesKeepTheRecord(c, h, id, scope, now, candidates[..|candidates| - 1]);
    }
  }

  /** The gate's record is there from before the engine's run to the end. */
  lemma RecordStays(job: Job, c: Client, e: Evaluation, recipient: Principal, scope: Scope, now: int, receipt: Receipt,
    run: AgentRun)
    ensures var start := WithHandoff(c, e, recipient, scope, now);
      IsKept(Closed(Complete(job, start).client, receipt, run), Handoff(e.record))
  {
    hide After, WithSources, LookupPreview, PlanOf;
    var recorded := Put(c, Handoff(e.record));
    var seated := Put(recorded, Session(AgentSession(scope, recipient, "agent_b", e.handoffId, now)));
    SourcesKeepTheRecord(seated, e.record, e.handoffId, scope, now, e.candidates);
    var start := WithHandoff(c, e, recipient, scope, now);
    LaterKeysUntouched(job, WithPlan(start, job.q), 0, |job.q.steps|, KeyOf(Handoff(e.record)));
    AtFirst(job, WithPlan(start, job.q));
  }

  /** One step of a served run: the gate's decision, the engine's decision and the receipt's entry fit together. */
  ghost predicate Agrees(served: Served, i: nat, id: string)
    requires i < |served.evaluation.candidates| && i < |served.report.decisions|
    requires i < |served.evaluation.receipt.entries|
  {
    var candidate, e := served.evaluation.candidates[i], served.report.decisions[i];
    var g := candidate.decision;
    && g.stepId == id && e.stepId == id
    && Tells(served.evaluation.receipt.entries[i], g, e)
    && (g.decision == Reuse ==>
      && e.decision == Reuse && candidate.result.Some?
      && id in served.report.outputs && served.report.outputs[id] == candidate.result.value.output
      && forall a :: a in served.report.attempts ==> a.stepId != id)
    && (g.decision == Rerun ==> e.decision != Reuse)
  }

  lemma NamesAgree(d: Desk, job: Job, p: Progress, i: nat)
    requires Sequenced(d.q.steps) && d.q == job.q && i < |job.q.steps| && Accounted(job, p, |job.q.steps|)
    ensures |SweepAll(d).candidates| == |job.q.steps|
    ensures SweepAll(d).candidates[i].decision.stepId == p.decisions[i].stepId == job.q.steps[i].id
  {
    hide Judge, Approved, Approves, Crosses, Sweep;
    CandidateAt(d, i);
    ApprovedExactly(d, Sweep(d, i).outputs, job.q.steps[i]);
  }

  /** What the service answers and leaves behind, whatever the request, the policies and the store: for every step,
      what the gate reuses is the engine's output with no attempt made, what the gate reruns the engine does not
      reuse, and the receipt says so; the handoff record, the final receipt and the agent's run are persisted; and
      with fresh attempt ids, what the receipt reports as executed or failed is proven by a persisted attempt. */
  lemma ServedRunsAreHonest(request: Request, now: int, recipient: Principal, policies: PolicySet, order: DigestOrder,
    c: Client, compute: (string, Value) -> Option<Value>, fails: set<string>, newId: string -> string, after: Client,
    served: Served, i: nat)
    requires Consistent(c) && Judged(request, now, recipient, policies, c, request.scope, order)
    requires i < |QueryOf(request, now).steps|
    requires var e := EvaluationOf(request, now, recipient, policies, c, request.scope, order);
      ServedAs(e, ServiceJob(QueryOf(request, now), recipient, compute, fails, newId),
        WithHandoff(c, e, recipient, request.scope, now), after, served)
    ensures var n := |QueryOf(request, now).steps|;
      && |served.evaluation.candidates| == |served.report.decisions| == |served.evaluation.receipt.entries| == n
      && Agrees(served, i, QueryOf(request, now).steps[i].id)
    ensures IsKept(after, Handoff(served.evaluation.record))
    ensures IsKept(after, ReceiptRecord(served.evaluation.receipt)) && IsKept(after, Record.Run(served.run))
    ensures var e := EvaluationOf(request, now, recipient, policies, c, request.scope, order);
      var job := ServiceJob(QueryOf(request, now), recipient, compute, fails, newId);
      FreshIds(job, WithPlan(WithHandoff(c, e, recipient, request.scope, now), job.q)) ==>
        Proven(served.evaluation.receipt.entries[i], after, request.scope)
  {
    hide Sequenced, Evaluated, DeskOf, WithHandoff, WithPlan, After, Judge, Sweep, QueryOf, Consistent, FreshIds;
    hide Proven, Tells, Finalized, CostSummary, Accounted, Approves, Accepted, OnlyPapers, IndexOf;
    var d := DeskOf(request, now, recipient, policies, c, request.scope, order);
    var e := EvaluationOf(request, now, recipient, policies, c, request.scope, order);
    var job := ServiceJob(QueryOf(request, now), recipient, compute, fails, newId);
    var start, n := WithHandoff(c, e, recipient, request.scope, now), |job.q.steps|;
    ServiceRunsAreJoined(request, now, recipient, policies, order, c, e, compute, fails, newId);
    JoinedQuery(d, job, c, start);
    EvaluationEntries(d);
    GateAndEngineAgree(d, job, c, start, i);
    ReusedExactlyWhenApproved(d, i);
    StepsAreAccountedFor(job, WithPlan(start, job.q), n);
    ReusedMakesNoAttempt(job, WithPlan(start, job.q), i);
    NamesAgree(d, job, Complete(job, start), i);
    FinalEntryTells(job, Complete(job, start), e.candidates[i].decision, i);
    RecordStays(job, c, e, recipient, request.scope, now, served.evaluation.receipt, served.run);
    DeskScope(request, now, recipient, policies, c, request.scope, order);
    QueryNames(request, now);
    if FreshIds(job, WithPlan(start, job.q)) {
      ReceiptIsProven(d, job, c, start, served.run, i);
    }
  }
}
