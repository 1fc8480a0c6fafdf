/** What the gate hands over and why it holds the rest back, in terms of the stored records and the policies alone. */
module GateMeaning {
  import opened Options
  import opened Json
  import opened Topology
  import opened Types
  import opened HandoffTypes
  import opened Core
  import opened Store
  import opened Planning
  import opened Gate
  import opened GateLaws

  // ----- what may cross -------------------------------------------------------------------

  /** The source's policy lets this recipient have its work. */
  ghost predicate PolicyAllows(d: Desk, owner: Scope, source: Provenance) {
    && source.category in d.policies
    && var p := d.policies[source.category];
    && p.projectScope == owner && p.recipientScope == d.q.scope
    && (p.agentAllowlist.Some? ==> d.recipient.agentId in p.agentAllowlist.value)
    && (p.providerRule == SameProvider ==> d.recipient.providerId == source.providerId)
    && (p.providerRule == ProviderAllowlist ==>
        p.providerAllowlist.Some? && d.recipient.providerId in p.providerAllowlist.value)
    && (p.exposureRule == ShareableOnly ==> source.exposure == Shareable)
  }

  /** The record is for this project, workflow, step, implementation and input, not expired, its artifact -- if it has
      one -- available; its output is the one that was signed and its source is known; a policy lets the recipient have
      it; and its external job, if it had one, is settled. */
  ghost predicate MayCross(d: Desk, step: Step, signature: Signature, r: WorkResult) {
    && r.scope == d.q.scope && r.workflowId == d.q.w.id && r.stepId == step.id
    && r.implementationId == step.implementationId && r.inputSignature == signature
    && (r.freshUntil.Some? ==> d.q.now < r.freshUntil.value)
    && (r.artifact.Some? ==> r.artifact.value.available)
    && r.outputSignature == OutputSignature(r.output)
    && r.provenance.Some? && PolicyAllows(d, r.scope, r.provenance.value)
    && (r.provenance.value.job.Some? ==> r.provenance.value.job.value.settlement == Settled)
  }

  lemma ApprovesExactly(d: Desk, step: Step, signature: Signature, r: WorkResult)
    ensures Approves(VerdictsFor(d, step, signature, r, true)) <==> MayCross(d, step, signature, r)
  {
    hide OutputSignature;
  }

  // ----- what is wrong with a record ------------------------------------------------------

  predicate HasJob(r: WorkResult, settlement: Settlement) {
    r.provenance.Some? && r.provenance.value.job.Some? && r.provenance.value.job.value.settlement == settlement
  }

  function JobFault(r: WorkResult): Option<string> {
    if HasJob(r, NeedsReconciliation) then Some("EXTERNAL_JOB_RECONCILIATION_REQUIRED")
    else if HasJob(r, UnknownSettlement) then Some("EXTERNAL_JOB_STATE_UNKNOWN")
    else if HasJob(r, Unsettled) then Some("EXTERNAL_JOB_UNSETTLED")
    else None
  }

  function ValidityFault(d: Desk, step: Step, signature: Signature, r: WorkResult, matched: bool): Option<string> {
    if r.scope != d.q.scope then Some("PROJECT_SCOPE_MISMATCH")
    else if r.workflowId != d.q.w.id then Some("WORKFLOW_MISMATCH")
    else if r.stepId != step.id then Some("STEP_MISMATCH")
    else if r.implementationId != step.implementationId then Some("IMPLEMENTATION_MISMATCH")
    else if !matched || r.inputSignature != signature then Some("INPUT_SIGNATURE_MISMATCH")
    else if r.freshUntil.Some? && r.freshUntil.value <= d.q.now then Some("RESULT_EXPIRED")
    else if r.artifact.Some? && !r.artifact.value.available then Some("ARTIFACT_UNAVAILABLE")
    else None
  }

  function TrustFault(r: WorkResult): Option<string> {
    if r.provenance.None? then Some("PROVENANCE_MISSING")
    else if r.outputSignature != OutputSignature(r.output) then Some("OUTPUT_SIGNATURE_MISMATCH")
    else None
  }

  function PolicyFault(d: Desk, owner: Scope, source: Provenance): Option<string> {
    if source.category !in d.policies then Some("NO_POLICY_FOR_WORK_CATEGORY")
    else
      var p := d.policies[source.category];
      if p.projectScope != owner then Some("POLICY_PROJECT_MISMATCH")
      else if p.recipientScope != d.q.scope then Some("RECIPIENT_PROJECT_MISMATCH")
      else if p.agentAllowlist.Some? && d.recipient.agentId !in p.agentAllowlist.value then
        Some("RECIPIENT_AGENT_NOT_ALLOWED")
      else if p.providerRule == SameProvider && d.recipient.providerId != source.providerId then
        Some("PROVIDER_RULE_SAME_PROVIDER_VIOLATED")
      else if p.providerRule == ProviderAllowlist
        && (p.providerAllowlist.None? || d.recipient.providerId !in p.providerAllowlist.value) then
        Some("PROVIDER_NOT_ALLOWLISTED")
      else if p.exposureRule == ShareableOnly && source.exposure != Shareable then Some("EXTERNAL_EXPOSURE_BLOCKED")
      else None
  }

  /** The decision on a record that was found: the external job comes first, then validity, trust and policy; the
      reason is the first fault. */
  function Ruling(d: Desk, step: Step, signature: Signature, r: WorkResult, matched: bool): (Decision, string) {
    if JobFault(r).Some? then (Blocked, "BLOCKED_" + JobFault(r).value)
    else if ValidityFault(d, step, signature, r, matched).Some? then
      (Rerun, "RERUN_" + ValidityFault(d, step, signature, r, matched).value)
    else if TrustFault(r).Some? then (Blocked, "BLOCKED_" + TrustFault(r).value)
    else if PolicyFault(d, r.scope, r.provenance.value).Some? then
      (Blocked, "BLOCKED_" + PolicyFault(d, r.scope, r.provenance.value).value)
    else (Reuse, "REUSE_APPROVED_BY_POLICY")
  }

  /** A verdict is favourable when nothing is wrong, and else names what is wrong. */
  ghost predicate Tells<S>(v: Verdict<S>, favourable: bool, fault: Option<string>) {
    (favourable <==> fault.None?) && (fault.Some? ==> v.code == fault.value)
  }

  lemma JobTells(r: WorkResult)
    ensures var v := JobOf(r); Tells(v, v.status == NotApplicable || v.status == Safe, JobFault(r))
    ensures JobOf(r).status != JobUnevaluated
  {
  }

  lemma ValidityTells(d: Desk, step: Step, signature: Signature, r: WorkResult, matched: bool)
    ensures var v := ValidityOf(d, step, signature, r, matched);
      Tells(v, v.status == Valid, ValidityFault(d, step, signature, r, matched)) && v.status != NoWork
  {
  }

  lemma TrustTells(r: WorkResult)
    ensures Tells(TrustOf(r), TrustOf(r).status == Trusted, TrustFault(r))
  {
    hide OutputSignature;
  }

  lemma PolicyTells(d: Desk, r: WorkResult)
    requires TrustOf(r).status == Trusted
    ensures r.provenance.Some?
    ensures var v := AuthorizationOf(d, r, TrustOf(r));
      Tells(v, v.status == Authorized, PolicyFault(d, r.scope, r.provenance.value))
  {
    hide OutputSignature;
  }

  lemma FoundIsRuled(d: Desk, step: Step, signature: Signature, r: WorkResult, matched: bool)
    ensures var x := FoundCandidate(d, step, signature, r, matched).decision;
      (x.decision, x.reason) == Ruling(d, step, signature, r, matched)
  {
    hide OutputSignature, JobOf, ValidityOf, TrustOf, AuthorizationOf, JobFault, ValidityFault, PolicyFault;
    JobTells(r);
    ValidityTells(d, step, signature, r, matched);
    TrustTells(r);
    if TrustOf(r).status == Trusted {
      PolicyTells(d, r);
    }
  }

  // ----- every decision of an evaluation --------------------------------------------------

  /** `r` is the step's record that was completed last; of those completed at that time the one with the larger output
      signature, and of equal ones the first in key order. */
  ghost predicate CompletedLast(d: Desk, stepId: string, r: WorkResult) {
    exists k :: k in d.index && k.0 == stepId && d.index[k] == r && forall other ::
      other in d.index && other.0 == stepId ==> NoLaterThan(d, d.index[other], other.1, r, k.1)
  }

  predicate NoLaterThan(d: Desk, a: WorkResult, keyA: Signature, b: WorkResult, keyB: Signature) {
    || a.completedAt < b.completedAt
    || (a.completedAt == b.completedAt &&
        ( || (a.outputSignature != b.outputSignature && d.order(a.outputSignature, b.outputSignature))
          || (a.outputSignature == b.outputSignature && d.order(keyB, keyA))))
  }

  /** The decision on a step, given what is handed over from the others. */
  ghost predicate RuledFor(d: Desk, step: Step, outputs: map<string, Value>, x: HandoffDecision) {
    && x.stepId == step.id && x.cost == (if x.decision == Reuse then None else step.cost)
    && match StepInput(step, d.q.inputs, outputs)
       case None =>
         && (x.decision, x.reason) == (PendingDependency, "PENDING_DEPENDENCY_OUTPUT") && x.signature == None
         && (x.found, x.evidence, x.verdicts.dependency.status) == (false, Evidence(None, None), Pending)
       case Some(input) =>
         x.signature == Some(SignatureFor(d.q, step, input)) && RuledUnder(d, step, SignatureFor(d.q, step, input), x)
  }

  ghost predicate RuledUnder(d: Desk, step: Step, signature: Signature, x: HandoffDecision) {
    if (step.id, signature) in d.index then RuledOn(d, step, signature, d.index[(step.id, signature)], true, x)
    else if HasRecord(d, step.id) then
      exists r :: CompletedLast(d, step.id, r) && RuledOn(d, step, signature, r, false, x)
    else
      && (x.evidence, x.verdicts.dependency.status) == (Evidence(None, None), Satisfied)
      && if step.id in d.damaged then
           && (x.decision, x.reason, x.found) == (Blocked, "BLOCKED_RECORD_UNDECODABLE", true)
           && (x.verdicts.validity.status, x.verdicts.trust.status) == (Invalid, Untrusted)
         else
           && (x.decision, x.reason, x.found) == (Rerun, "RERUN_NO_CANDIDATE_WORK", false)
           && (x.verdicts.validity.status, x.verdicts.trust.status) == (NoWork, NothingToTrust)
  }

  ghost predicate HasRecord(d: Desk, stepId: string) {
    exists k :: k in d.index && k.0 == stepId
  }

  ghost predicate RuledOn(d: Desk, step: Step, signature: Signature, r: WorkResult, matched: bool, x: HandoffDecision) {
    && (x.decision, x.reason) == Ruling(d, step, signature, r, matched)
    && x.found && VerdictsTell(d, step, signature, r, matched, x.verdicts)
    && x.evidence == Evidence(Some(r.outputSignature), if r.provenance.None? then None else
         Some(Principal(r.provenance.value.agentId, r.provenance.value.sessionId, r.provenance.value.providerId)))
  }

  /** Each verdict names what is wrong in its respect; the policy is looked at for trusted work only. */
  ghost predicate VerdictsTell(d: Desk, step: Step, signature: Signature, r: WorkResult, matched: bool, v: Verdicts) {
    && Tells(v.job, v.job.status == NotApplicable || v.job.status == Safe, JobFault(r))
    && Tells(v.validity, v.validity.status == Valid, ValidityFault(d, step, signature, r, matched))
    && Tells(v.trust, v.trust.status == Trusted, TrustFault(r))
    && v.dependency.status == Satisfied
    && if v.trust.status == Trusted then
         r.provenance.Some? &&
         Tells(v.authorization, v.authorization.status == Authorized, PolicyFault(d, r.scope, r.provenance.value))
       else v.authorization.status == AuthorizationUnevaluated
  }

  lemma VerdictsAreTold(d: Desk, step: Step, signature: Signature, r: WorkResult, matched: bool)
    ensures VerdictsTell(d, step, signature, r, matched, VerdictsFor(d, step, signature, r, matched))
  {
    hide OutputSignature, JobOf, ValidityOf, TrustOf, JobFault, ValidityFault, TrustFault, PolicyFault;
    JobTells(r);
    ValidityTells(d, step, signature, r, matched);
    TrustTells(r);
    if TrustOf(r).status == Trusted {
      PolicyTells(d, r);
    }
  }

  lemma FoundIsRuledOn(d: Desk, step: Step, signature: Signature, r: WorkResult, matched: bool)
    ensures var x := FoundCandidate(d, step, signature, r, matched).decision;
      && RuledOn(d, step, signature, r, matched, x)
      && x.stepId == step.id && x.signature == Some(signature)
      && x.cost == (if x.decision == Reuse then None else step.cost)
  {
    hide VerdictsFor, VerdictsTell, Decide, Ruling;
    FoundIsRuled(d, step, signature, r, matched);
    VerdictsAreTold(d, step, signature, r, matched);
  }

  /** Of several results under one step and signature the index keeps the one completed last, of those completed at that
      time the one with the largest output signature -- in whatever order they come. */
  lemma {:induction false} IndexKeepsTheLast(le: DigestOrder, results: seq<WorkResult>, r: WorkResult)
    requires r in results
    ensures SlipOf(r) in Indexed(le, results)
    ensures var x := Indexed(le, results)[SlipOf(r)];
      && x in results && SlipOf(x) == SlipOf(r)
      && (r.completedAt < x.completedAt
        || (r.completedAt == x.completedAt && le(r.outputSignature, x.outputSignature)))
  {
    hide TotalOrder;
    var n, index := |results| - 1, Indexed(le, results);
    var last, before := results[n], Indexed(le, results[..n]);
    OrderTotal(le, last.outputSignature, last.outputSignature);
    if SlipOf(last) in before {
      IndexHolds(le, results[..n], SlipOf(last));
      OrderTotal(le, before[SlipOf(last)].outputSignature, last.outputSignature);
    }
    if r in results[..n] {
      IndexKeepsTheLast(le, results[..n], r);
      if SlipOf(r) == SlipOf(last) && le(r.outputSignature, before[SlipOf(last)].outputSignature)
        && le(before[SlipOf(last)].outputSignature, last.outputSignature)
      {
        OrderTransitive(le, r.outputSignature, before[SlipOf(last)].outputSignature, last.outputSignature);
      }
    }
    IndexHolds(le, results, SlipOf(r));
  }

  lemma {:induction false} IndexHolds(le: DigestOrder, results: seq<WorkResult>, slip: Slip)
    requires slip in Indexed(le, results)
    ensures Indexed(le, results)[slip] in results && SlipOf(Indexed(le, results)[slip]) == slip
  {
    hide CompletedAfter;
    var n := |results| - 1;
    if slip in Indexed(le, results[..n]) {
      IndexHolds(le, results[..n], slip);
    }
  }

  lemma LatestIsCompletedLast(d: Desk, stepId: string)
    ensures match Latest(d.order, d.index, stepId)
      case Some(r) => CompletedLast(d, stepId, r)
      case None => true
  {
    hide TotalOrder;
    if Latest(d.order, d.index, stepId).Some? {
      var k :| Leads(d.order, d.index, stepId, k) && Latest(d.order, d.index, stepId) == Some(d.index[k]);
      forall other | other in d.index && other.0 == stepId
        ensures NoLaterThan(d, d.index[other], other.1, d.index[k], k.1)
      {
        assert Ahead(d.order, k, other, d.index);
        OrderTotal(d.order, d.index[other].outputSignature, d.index[k].outputSignature);
      }
    }
  }

  lemma LatestIsThere(d: Desk, stepId: string)
    ensures Latest(d.order, d.index, stepId).Some? <==> HasRecord(d, stepId)
  {
    hide TotalOrder, Ahead;
    if HasRecord(d, stepId) {
      var all := set k | k in d.index && k.0 == stepId;
      var some :| some in d.index && some.0 == stepId;
      assert some in all;
      var k := LeaderOf(d, all);
      assert Leads(d.order, d.index, stepId, k);
    }
  }

  lemma {:induction false} LeaderOf(d: Desk, all: set<Slip>) returns (k: Slip)
    requires all != {} && all <= d.index.Keys
    ensures k in all && forall other :: other in all ==> Ahead(d.order, k, other, d.index)
    decreases all
  {
    hide Ahead;
    k :| k in all;
    AheadTotal(d.order, k, k, d.index);
    if all != {k} {
      var best := LeaderOf(d, all - {k});
      AheadTotal(d.order, k, best, d.index);
      if Ahead(d.order, k, best, d.index) {
        forall other | other in all - {k} ensures Ahead(d.order, k, other, d.index) {
          AheadTransitive(d.order, k, best, other, d.index);
        }
      } else {
        k := best;
      }
    }
  }

  lemma InputIsRuled(d: Desk, step: Step, signature: Signature)
    ensures var x := JudgeInput(d, step, signature).decision;
      && RuledUnder(d, step, signature, x) && x.stepId == step.id && x.signature == Some(signature)
      && x.cost == (if x.decision == Reuse then None else step.cost)
  {
    hide Latest, FoundCandidate, RuledOn, CompletedLast, HasRecord;
    var latest := Latest(d.order, d.index, step.id);
    LatestIsThere(d, step.id);
    if (step.id, signature) in d.index {
      FoundIsRuledOn(d, step, signature, d.index[(step.id, signature)], true);
    } else if latest.Some? {
      FoundIsRuledOn(d, step, signature, latest.value, false);
      LatestIsCompletedLast(d, step.id);
    }
  }

  lemma JudgedIsRuled(d: Desk, outputs: map<string, Value>, step: Step)
    ensures RuledFor(d, step, outputs, Judge(d, outputs, step).decision)
  {
    hide StepInput, SignatureFor, JudgeInput, RuledUnder;
    var resolved := StepInput(step, d.q.inputs, outputs);
    if resolved.Some? {
      InputIsRuled(d, step, SignatureFor(d.q, step, resolved.value));
    }
  }

  /** What the sweep has approved by the end gives a step the input it had when it was judged. */
  lemma InputAtTheEnd(d: Desk, i: nat)
    requires Sequenced(d.q.steps) && i < |d.q.steps|
    ensures StepInput(d.q.steps[i], d.q.inputs, Sweep(d, i).outputs)
      == StepInput(d.q.steps[i], d.q.inputs, SweepAll(d).outputs)
  {
    hide StepInput, Judge, MissesInput, DependencySet;
    InputKnownWhen(d, i);
    InputKnownExactly(d.q, d.q.steps[i], SweepAll(d).outputs);
    SweepStands(d, i, |d.q.steps|);
    if StepInput(d.q.steps[i], d.q.inputs, Sweep(d, i).outputs).Some? {
      StepInputMonotone(d.q.steps[i], d.q.inputs, Sweep(d, i).outputs, SweepAll(d).outputs);
    }
  }

  /** Every decision of an evaluation: waiting without an input; ruled by the record under the input's signature, else
      by the step's latest record; else by an undecodable record; else there is no work. */
  lemma DecisionsAreRuled(d: Desk, i: nat)
    requires Sequenced(d.q.steps) && i < |d.q.steps|
    ensures |SweepAll(d).candidates| == |d.q.steps|
    ensures RuledFor(d, d.q.steps[i], SweepAll(d).outputs, SweepAll(d).candidates[i].decision)
  {
    hide StepInput, Judge, RuledUnder, SignatureFor;
    CandidateAt(d, i);
    InputAtTheEnd(d, i);
    JudgedIsRuled(d, Sweep(d, i).outputs, d.q.steps[i]);
  }

  // ----- the approved context -------------------------------------------------------------

  ghost predicate FromCandidates(candidates: seq<Candidate>, items: seq<ApprovedItem>, notices: seq<Notice>) {
    && (forall item :: item in items ==> exists c :: c in candidates && Approved(c) && ItemOf(c) == Some(item))
    && (forall n :: n in notices ==> exists c :: c in candidates && !Approved(c) && NoticeOf(c) == n)
    && (forall c :: c in candidates && Approved(c) ==> ItemOf(c).Some? && ItemOf(c).value in items)
    && (forall c :: c in candidates && !Approved(c) ==> NoticeOf(c) in notices)
  }

  lemma {:induction false} SortedTells(candidates: seq<Candidate>)
    ensures match Sorted(candidates)
      case None => true
      case Some((items, notices)) => FromCandidates(candidates, items, notices)
  {
    hide Approved, ItemOf, NoticeOf, ItemGuard, NoticeGuard;
    if candidates != [] {
      var front, c := candidates[..|candidates| - 1], candidates[|candidates| - 1];
      SortedTells(front);
      assert candidates == front + [c];
    }
  }

  /** The outputs that the items carry, by step. */
  ghost predicate CarriedBy(items: seq<ApprovedItem>, outputs: map<string, Value>) {
    && (forall item :: item in items ==> item.stepId in outputs && outputs[item.stepId] == item.output)
    && (forall id :: id in outputs ==> exists item :: item in items && item.stepId == id)
  }

  /** What an item says about the record that it hands over. */
  ghost predicate ItemTells(item: ApprovedItem, step: Step, signature: Signature, r: WorkResult) {
    && item.stepId == step.id && item.output == r.output && item.outputSignature == r.outputSignature
    && item.artifact == r.artifact
    && r.provenance.Some?
    && item.category == r.provenance.value.category
    && item.agentId == r.provenance.value.agentId && item.sessionId == r.provenance.value.sessionId
    && item.decision.stepId == step.id && item.decision.signature == Some(signature)
    && item.decision.decision == Reuse && item.decision.reason == "REUSE_APPROVED_BY_POLICY"
  }

  /** The step's input is known and the record stored under its signature may cross. */
  ghost predicate Handed(d: Desk, step: Step, outputs: map<string, Value>) {
    match StepInput(step, d.q.inputs, outputs)
    case None => false
    case Some(input) =>
      var slip := (step.id, SignatureFor(d.q, step, input));
      slip in d.index && MayCross(d, step, slip.1, d.index[slip])
  }

  lemma CrossesExactly(d: Desk, i: nat)
    requires Sequenced(d.q.steps) && i < |d.q.steps|
    ensures |SweepAll(d).candidates| == |d.q.steps|
    ensures var c, step := SweepAll(d).candidates[i], d.q.steps[i];
      && (Approved(c) <==> Handed(d, step, SweepAll(d).outputs))
      && (Approved(c) <==> step.id in SweepAll(d).outputs)
      && (Approved(c) ==>
        && ItemOf(c).Some?
        && var signature := SignatureFor(d.q, step, StepInput(step, d.q.inputs, SweepAll(d).outputs).value);
        ItemTells(ItemOf(c).value, step, signature, d.index[(step.id, signature)]))
  {
    hide StepInput, SignatureFor, Judge, VerdictsFor, MayCross, Approves, OutputSignature;
    CandidateAt(d, i);
    var step, c := d.q.steps[i], SweepAll(d).candidates[i];
    InputAtTheEnd(d, i);
    ReusedExactlyWhenApproved(d, i);
    ApprovedExactly(d, Sweep(d, i).outputs, step);
    DecisionsAreRuled(d, i);
    var resolved := StepInput(step, d.q.inputs, SweepAll(d).outputs);
    if resolved.Some? {
      var slip := (step.id, SignatureFor(d.q, step, resolved.value));
      if slip in d.index {
        ApprovesExactly(d, step, slip.1, d.index[slip]);
      }
    }
  }

  /** What the context says about one step: its record, if it may cross; else why not. */
  ghost predicate StepHandled(d: Desk, context: ApprovedContext, step: Step, outputs: map<string, Value>) {
    if Handed(d, step, outputs) then
      var signature := SignatureFor(d.q, step, StepInput(step, d.q.inputs, outputs).value);
      exists item :: item in context.items && ItemTells(item, step, signature, d.index[(step.id, signature)])
    else
      && (forall item :: item in context.items ==> item.stepId != step.id)
      && exists x :: NoticedAs(d, step, outputs, context.blocked, x)
  }

  ghost predicate NoticedAs(d: Desk, step: Step, outputs: map<string, Value>, notices: seq<Notice>, x: HandoffDecision)
  {
    RuledFor(d, step, outputs, x) && x.decision != Reuse && Notice(step.id, x.decision, x.reason) in notices
  }

  /** The context hands over exactly the records that may cross, `outputs` being what it hands over. */
  ghost predicate HandsOver(d: Desk, context: ApprovedContext, outputs: map<string, Value>) {
    && CarriedBy(context.items, outputs)
    && (forall item :: item in context.items ==> item.stepId in Ids(d.q.steps))
    && (forall i :: 0 <= i < |d.q.steps| ==> StepHandled(d, context, d.q.steps[i], outputs))
  }

  lemma SplitCarries(ids: seq<string>, outputs: map<string, Value>, items: seq<ApprovedItem>, notices: seq<Notice>)
    requires SplitOf(ids, outputs, items, notices) && forall id :: id in outputs ==> id in ids
    ensures CarriedBy(items, outputs) && forall item :: item in items ==> item.stepId in ids
  {
    var chosen := Select(ids, outputs.Keys, true);
    forall item | item in items ensures item.stepId in ids {
      var k :| 0 <= k < |items| && items[k] == item;
      assert chosen[k] == item.stepId && chosen[k] in chosen;
    }
    forall id | id in outputs ensures exists item :: item in items && item.stepId == id {
      assert id in chosen;
      var k :| 0 <= k < |chosen| && chosen[k] == id;
      assert items[k] in items && items[k].stepId == id;
    }
  }

  lemma StepIsHandled(d: Desk, context: ApprovedContext, i: nat)
    requires Sequenced(d.q.steps) && i < |d.q.steps|
    requires FromCandidates(SweepAll(d).candidates, context.items, context.blocked)
    requires CarriedBy(context.items, SweepAll(d).outputs)
    ensures StepHandled(d, context, d.q.steps[i], SweepAll(d).outputs)
  {
    hide Approved, ItemOf, Handed, RuledFor, ItemTells, SignatureFor, StepInput, SweepAll;
    CrossesExactly(d, i);
    DecisionsAreRuled(d, i);
    ReusedExactlyWhenApproved(d, i);
    var c := SweepAll(d).candidates[i];
    assert c in SweepAll(d).candidates;
    if !Handed(d, d.q.steps[i], SweepAll(d).outputs) {
      NoticeOfUnapproved(d, i);
      assert NoticedAs(d, d.q.steps[i], SweepAll(d).outputs, context.blocked, c.decision);
    } else {
      HandedHasInput(d, d.q.steps[i], SweepAll(d).outputs);
      assert ItemOf(c).value in context.items;
    }
  }

  lemma HandedHasInput(d: Desk, step: Step, outputs: map<string, Value>)
    requires Handed(d, step, outputs)
    ensures StepInput(step, d.q.inputs, outputs).Some?
    ensures (step.id, SignatureFor(d.q, step, StepInput(step, d.q.inputs, outputs).value)) in d.index
  {
  }

  lemma NoticeOfUnapproved(d: Desk, i: nat)
    requires Sequenced(d.q.steps) && i < |d.q.steps|
    ensures |SweepAll(d).candidates| == |d.q.steps|
    ensures var c := SweepAll(d).candidates[i];
      && NoticeOf(c) == Notice(d.q.steps[i].id, c.decision.decision, c.decision.reason)
      && (Approved(c) <==> c.decision.decision == Reuse)
  {
    hide Judge, SweepAll;
    DecisionsAreRuled(d, i);
  }

  /** Record, receipt and context are about one handoff, named by the request, the recipient, the policies and the
      decisions; record and receipt give each step's ruling; the receipt counts them; nothing has come of them yet. */
  ghost predicate PapersTell(d: Desk, e: Evaluation, outputs: map<string, Value>) {
    var id := HandoffId(d.q.scope, d.q.w.id, d.q.w.version, d.recipient, d.policies, e.record.decisions);
    && |e.record.decisions| == |e.receipt.entries| == |d.q.steps|
    && (forall i :: 0 <= i < |d.q.steps| ==>
      && RuledFor(d, d.q.steps[i], outputs, e.record.decisions[i])
      && EntryTells(e.receipt.entries[i], e.record.decisions[i]))
    && NamesHandoff(d, e, id)
    && forall kind :: kind in e.receipt.counts && e.receipt.counts[kind] == multiset(KindsOf(e.receipt.entries))[kind]
  }

  ghost predicate NamesHandoff(d: Desk, e: Evaluation, id: HandoffId) {
    && e.handoffId == id
    && e.record == HandoffRecord(id, d.q.scope, d.q.w.id, d.q.w.version, d.recipient, e.record.decisions, d.q.now)
    && (e.context.handoffId, e.context.scope, e.context.recipient) == (id, d.q.scope, d.recipient)
    && e.receipt == Receipt(ReceiptId(id, e.receipt.entries), id, d.q.scope, d.q.w.id, d.recipient, e.receipt.entries,
         e.receipt.counts, d.q.now)
  }

  predicate EntryTells(entry: ReceiptEntry, x: HandoffDecision) {
    && entry.stepId == x.stepId && entry.decision == x.decision && entry.reason == x.reason
    && entry.evidence == x.evidence && entry.cost == x.cost && entry.verdicts == x.verdicts
    && entry.outcome == NotRecorded && entry.attemptId == None
  }

  lemma PapersAreThere(d: Desk)
    ensures match Evaluated(d)
      case None => true
      case Some(e) =>
        && |e.record.decisions| == |e.candidates| == |e.receipt.entries|
        && (forall i :: 0 <= i < |e.candidates| ==>
          e.record.decisions[i] == e.candidates[i].decision && EntryTells(e.receipt.entries[i], e.record.decisions[i]))
        && NamesHandoff(d, e,
             HandoffId(d.q.scope, d.q.w.id, d.q.w.version, d.recipient, d.policies, e.record.decisions))
        && e.receipt.counts == Counts(e.receipt.entries)
  {
    hide Guarded, Sorted, RecordGuard, ContextGuard, ReceiptGuard, Counts;
  }

  /** Of every well-formed request the context holds exactly the steps whose stored record, under the signature of the
      input that the handed-over outputs give the step, may cross -- and for every other step the reason why it may
      not; record and receipt say the same. */
  lemma HandedOverExactly(d: Desk)
    requires WellFormed(d)
    ensures Evaluated(d).Some? && exists outputs ::
      HandsOver(d, Evaluated(d).value.context, outputs) && PapersTell(d, Evaluated(d).value, outputs)
  {
    hide Evaluated, StepHandled, SplitOf, CarriedBy, FromCandidates, Sorted, SweepAll, IsIdentifier, NamedSource;
    hide RuledFor, EntryTells, NamesHandoff, Counts, KindsOf;
    EvaluationIsTotal(d);
    ItemsAndNoticesPartition(d);
    SortedTells(SweepAll(d).candidates);
    PapersAreThere(d);
    var e, outputs := Evaluated(d).value, SweepAll(d).outputs;
    OutputsAreOfSteps(d);
    SweepKeepsAll(d);
    SplitCarries(Ids(d.q.steps), outputs, e.context.items, e.context.blocked);
    forall i | 0 <= i < |d.q.steps|
      ensures StepHandled(d, e.context, d.q.steps[i], outputs)
      ensures RuledFor(d, d.q.steps[i], outputs, e.record.decisions[i])
    {
      StepIsHandled(d, e.context, i);
      DecisionsAreRuled(d, i);
    }
    forall kind ensures kind in e.receipt.counts
      ensures e.receipt.counts[kind] == multiset(KindsOf(e.receipt.entries))[kind]
    {
      CountsAreExact(e.receipt.entries, kind);
    }
    assert HandsOver(d, e.context, outputs) && PapersTell(d, e, outputs);
  }

  lemma OutputsAreOfSteps(d: Desk)
    requires Sequenced(d.q.steps)
    ensures forall id :: id in SweepAll(d).outputs ==> id in Ids(d.q.steps)
  {
    hide Shaped, Approved, Sweep, Sequenced;
    SweepKeepsShape(d, |d.q.steps|);
    assert d.q.steps[..|d.q.steps|] == d.q.steps;
  }

  /** The record that the gate finds for a step and signature is the one that the store keeps under them. */
  ghost predicate IndexIsTheStore(index: Index, c: Client, owner: Scope, workflowId: string) {
    forall stepId, signature, r :: ((stepId, signature) in index && index[(stepId, signature)] == r) <==>
      var k := WorkKey(owner, workflowId, stepId, signature); k in c.entities && c.entities[k] == Work(r)
  }

  /** So it is for every accepted request, on whatever the store keeps. */
  lemma GateHandsOverExactly(request: Request, now: int, recipient: Principal, policies: PolicySet, c: Client,
    owner: Scope, order: DigestOrder)
    requires Accepted(request) && Consistent(c) && ProperNames(request.workflow, c)
    ensures var d := DeskOf(request, now, recipient, policies, c, owner, order);
      && IndexIsTheStore(d.index, c, owner, request.workflow.id)
      && Evaluated(d).Some? && exists outputs ::
        HandsOver(d, Evaluated(d).value.context, outputs) && PapersTell(d, Evaluated(d).value, outputs)
  {
    hide Evaluated, HandsOver, PapersTell, ProperNames, ValidWorkflow, ValidInputs, Consistent, DamagedSteps;
    hide WellFormed;
    var d := DeskOf(request, now, recipient, policies, c, owner, order);
    DeskIsWellFormed(request, now, recipient, policies, c, owner, order);
    HandedOverExactly(d);
    forall stepId, signature
      ensures Exact(d.index, stepId, signature) == GetWork(c, owner, request.workflow.id, stepId, signature)
    {
      IndexFinds(c, owner, request.workflow.id, stepId, signature);
    }
    LookupsAreTheStore(d.index, c, owner, request.workflow.id);
  }

  lemma LookupsAreTheStore(index: Index, c: Client, owner: Scope, workflowId: string)
    requires forall stepId, signature ::
      Exact(index, stepId, signature) == GetWork(c, owner, workflowId, stepId, signature)
    ensures IndexIsTheStore(index, c, owner, workflowId)
  {
    forall stepId, signature, r
      ensures ((stepId, signature) in index && index[(stepId, signature)] == r) <==>
        var k := WorkKey(owner, workflowId, stepId, signature); k in c.entities && c.entities[k] == Work(r)
    {
      assert Exact(index, stepId, signature) == GetWork(c, owner, workflowId, stepId, signature);
    }
  }

  // ----- when the gate refuses ------------------------------------------------------------

  /** The text without the blanks at its ends. */
  function Stripped(s: string): string {
    if s == "" then ""
    else if IsBlank(s[0]) then Stripped(s[1..])
    else if IsBlank(s[|s| - 1]) then Stripped(s[..|s| - 1])
    else s
  }

  lemma {:induction false} StrippedIsNoLonger(s: string)
    ensures |Stripped(s)| <= |s|
  {
    hide IsBlank;
    if s != "" {
      StrippedIsNoLonger(s[1..]);
      StrippedIsNoLonger(s[..|s| - 1]);
    }
  }

  lemma IdentifiersAreTrimmed(s: string)
    ensures IsIdentifier(s) <==> s != "" && Stripped(s) == s
  {
    hide IsBlank;
    if s != "" {
      StrippedIsNoLonger(s[1..]);
      StrippedIsNoLonger(s[..|s| - 1]);
    }
  }

  lemma {:induction false} GuardedNames(d: Desk, k: nat, i: nat)
    requires i < k <= |d.q.steps| && Guarded(d, k).Some?
    ensures IsIdentifier(d.q.steps[i].id)
    decreases k
  {
    hide Judge, IsIdentifier, Collect, VerdictsGuard, Approves;
    if i < k - 1 {
      GuardedNames(d, k - 1, i);
    } else {
      ApprovedExactly(d, Guarded(d, k - 1).value.outputs, d.q.steps[i]);
    }
  }

  lemma EvaluatedNames(d: Desk)
    requires Evaluated(d).Some?
    ensures IsIdentifier(d.q.w.id) && IsIdentifier(d.q.w.version)
    ensures forall i :: 0 <= i < |d.q.steps| ==> IsIdentifier(d.q.steps[i].id)
  {
    hide Guarded, IsIdentifier, Sorted, ContextGuard, ReceiptGuard, Counts, IdOf, EntriesOf, DecisionsOf;
    forall i | 0 <= i < |d.q.steps| ensures IsIdentifier(d.q.steps[i].id) {
      GuardedNames(d, |d.q.steps|, i);
    }
  }

  ghost predicate Trimmed(s: string) {
    s != "" && Stripped(s) == s
  }

  /** On stored work whose sources are named, the gate raises exactly when the workflow's id, its version or a step's id
      is empty or has blanks at an end. */
  lemma EvaluatedExactly(d: Desk)
    requires Sequenced(d.q.steps) && forall k :: k in d.index ==> NamedSource(d.index[k])
    ensures Evaluated(d).Some? <==>
      && Trimmed(d.q.w.id) && Trimmed(d.q.w.version)
      && forall i :: 0 <= i < |d.q.steps| ==> Trimmed(d.q.steps[i].id)
  {
    hide Evaluated, IsIdentifier, Stripped, NamedSource, Sequenced;
    forall s: string ensures IsIdentifier(s) <==> Trimmed(s) {
      IdentifiersAreTrimmed(s);
    }
    if Evaluated(d).Some? {
      EvaluatedNames(d);
    } else if Trimmed(d.q.w.id) && Trimmed(d.q.w.version)
      && forall i :: 0 <= i < |d.q.steps| ==> Trimmed(d.q.steps[i].id)
    {
      EvaluationIsTotal(d);
    }
  }
}
