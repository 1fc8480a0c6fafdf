/** What can influence the gate: records it rejects cannot, time can only take approvals away, new records and
    more permissive policies can only add them. */
module GateInfluence {
  import opened Options
  import opened Json
  import opened Types
  import opened HandoffTypes
  import opened Core
  import opened Store
  import opened Planning
  import opened Gate
  import opened GateLaws

  // ----- monotonicity ---------------------------------------------------------------------

  /** `b` allows every agent, provider and exposure that `a` allows. */
  ghost predicate PolicyAllowsMore(a: Policy, b: Policy) {
    && b.projectScope == a.projectScope && b.recipientScope == a.recipientScope
    && (b.agentAllowlist.Some? ==> a.agentAllowlist.Some? && a.agentAllowlist.value <= b.agentAllowlist.value)
    && (b.providerRule == AnyProvider
        || (b.providerRule == SameProvider && a.providerRule == SameProvider)
        || (b.providerRule == ProviderAllowlist && a.providerRule == ProviderAllowlist
            && (a.providerAllowlist.Some? ==>
                b.providerAllowlist.Some? && a.providerAllowlist.value <= b.providerAllowlist.value)))
    && (b.exposureRule == ShareableOnly ==> a.exposureRule == ShareableOnly)
  }

  ghost predicate PoliciesAllowMore(a: PolicySet, b: PolicySet) {
    forall category :: category in a ==> category in b && PolicyAllowsMore(a[category], b[category])
  }

  ghost predicate HoldsMore(a: Index, b: Index) {
    forall k :: k in a ==> k in b && b[k] == a[k]
  }

  /** The same request at a time no later, over a store with records added under new keys, with policies that
      allow more. */
  ghost predicate Favours(a: Desk, b: Desk) {
    && b.q.scope == a.q.scope && b.q.w == a.q.w && b.q.steps == a.q.steps && b.q.inputs == a.q.inputs
    && b.recipient == a.recipient
    && b.q.now <= a.q.now && HoldsMore(a.index, b.index) && PoliciesAllowMore(a.policies, b.policies)
  }

  lemma AuthorizationMonotone(a: Desk, b: Desk, r: WorkResult, trust: Verdict<Trust>)
    requires Favours(a, b) && AuthorizationOf(a, r, trust).status == Authorized
    ensures AuthorizationOf(b, r, trust).status == Authorized
  {
  }

  lemma CrossesMonotone(a: Desk, b: Desk, step: Step, signature: Signature)
    requires Favours(a, b) && Crosses(a, step, signature)
    ensures Crosses(b, step, signature)
    ensures b.index[(step.id, signature)] == a.index[(step.id, signature)]
  {
    hide AuthorizationOf, OutputSignature, ArtifactUsable;
    var r := a.index[(step.id, signature)];
    AuthorizationMonotone(a, b, r, TrustOf(r));
  }

  lemma StepMonotone(a: Desk, b: Desk, small: map<string, Value>, large: map<string, Value>, step: Step)
    requires Favours(a, b) && Extends(small, large) && Approved(Judge(a, small, step))
    ensures Approved(Judge(b, large, step)) && Judge(b, large, step).result == Judge(a, small, step).result
  {
    hide Judge, StepInput, Crosses, SignatureFor, PoliciesAllowMore, Approved;
    StepApproval(a, small, step);
    StepApproval(b, large, step);
    StepInputMonotone(step, a.q.inputs, small, large);
    var input := StepInput(step, a.q.inputs, small).value;
    SameSignature(a.q, b.q, step, input);
    CrossesMonotone(a, b, step, SignatureFor(a.q, step, input));
  }

  lemma CollectMonotone(s: Swept, t: Swept, c: Candidate, e: Candidate)
    requires Extends(s.outputs, t.outputs) && c.stepId == e.stepId && c.stepId !in s.outputs
    requires Approved(c) ==> Approved(e) && e.result == c.result
    ensures Extends(Collect(s, c).outputs, Collect(t, e).outputs)
  {
  }

  /** Approvals, with their outputs, are monotone: they shrink as time passes, and grow when records are added
      under new keys or policies are made more permissive. */
  lemma {:induction false} ApprovalIsMonotone(a: Desk, b: Desk, k: nat)
    requires Favours(a, b) && Sequenced(a.q.steps) && k <= |a.q.steps|
    ensures Extends(Sweep(a, k).outputs, Sweep(b, k).outputs)
  {
    hide Judge, Collect, Approved, Shaped, Approves, Crosses, SignatureFor, StepInput;
    if k > 0 {
      var step, s, t := a.q.steps[k - 1], Sweep(a, k - 1), Sweep(b, k - 1);
      ApprovalIsMonotone(a, b, k - 1);
      SweepKeepsShape(a, k - 1);
      StepApproval(a, s.outputs, step);
      StepApproval(b, t.outputs, step);
      if Approved(Judge(a, s.outputs, step)) {
        StepMonotone(a, b, s.outputs, t.outputs, step);
      }
      CollectMonotone(s, t, Judge(a, s.outputs, step), Judge(b, t.outputs, step));
    }
  }

  lemma SameSignature(a: Query, b: Query, step: Step, input: Value)
    requires a.scope == b.scope && a.w == b.w
    ensures SignatureFor(a, step, input) == SignatureFor(b, step, input)
  {
    hide InputSignature;
  }

  /** `ApprovedExactly`, reduced to what the induction needs. */
  lemma StepApproval(d: Desk, outputs: map<string, Value>, step: Step)
    ensures var c, resolved := Judge(d, outputs, step), StepInput(step, d.q.inputs, outputs);
      && c.stepId == step.id
      && (Approved(c) <==> resolved.Some? && Crosses(d, step, SignatureFor(d.q, step, resolved.value)))
      && (Approved(c) ==>
          var k := (step.id, SignatureFor(d.q, step, resolved.value));
          k in d.index && c.result == Some(d.index[k]))
  {
    hide Judge, StepInput, Approves, VerdictsFor, SignatureFor, OutputSignature;
    ApprovedExactly(d, outputs, step);
  }

  // ----- non-interference -----------------------------------------------------------------

  /** The record of an approved step. */
  ghost predicate ApprovedSlip(d: Desk, k: Slip) {
    exists c :: c in SweepAll(d).candidates && Approved(c) && c.result.Some? && SlipOf(c.result.value) == k
  }

  /** The same record with, possibly, another output and the signature of that output. */
  ghost predicate SameButOutput(r: WorkResult, s: WorkResult) {
    && s == r.(output := s.output, outputSignature := s.outputSignature)
    && s.outputSignature == OutputSignature(s.output)
  }

  /** Every record is whole: its output matches its signature.  Decoding refuses any other. */
  ghost predicate Whole(d: Desk) {
    forall k :: k in d.index ==> d.index[k].outputSignature == OutputSignature(d.index[k].output)
  }

  /** `b` is `a` with the outputs of any records that the gate does not approve replaced. */
  ghost predicate Replaced(a: Desk, b: Desk) {
    && b == a.(index := b.index) && a.index.Keys == b.index.Keys
    && (forall k :: k in a.index ==> SameButOutput(a.index[k], b.index[k]))
    && (forall k :: k in a.index && ApprovedSlip(a, k) ==> b.index[k] == a.index[k])
  }

  lemma VerdictsIgnoreOutput(a: Desk, b: Desk, step: Step, signature: Signature, r: WorkResult, s: WorkResult,
    matched: bool)
    requires a.q == b.q && a.recipient == b.recipient && a.policies == b.policies
    requires SameButOutput(r, s) && r.outputSignature == OutputSignature(r.output)
    ensures VerdictsFor(a, step, signature, r, matched) == VerdictsFor(b, step, signature, s, matched)
  {
    hide OutputSignature, AgentAllowed, ProviderAllowed;
  }

  lemma CrossesIgnoresOutput(a: Desk, b: Desk, step: Step, signature: Signature)
    requires Replaced(a, b) && Whole(a)
    ensures Crosses(a, step, signature) <==> Crosses(b, step, signature)
  {
    hide Approves, VerdictsFor, ApprovedSlip, OutputSignature;
    var k := (step.id, signature);
    if k in a.index {
      VerdictsIgnoreOutput(a, b, step, signature, a.index[k], b.index[k], true);
    }
  }

  /** Approved or not alike; approved ones are the same candidate. */
  ghost predicate SameApproval(c: Candidate, e: Candidate) {
    (Approved(c) <==> Approved(e)) && (Approved(c) ==> c == e) && c.stepId == e.stepId
  }

  lemma JudgedAlike(a: Desk, b: Desk, outputs: map<string, Value>, i: nat)
    requires Replaced(a, b) && Whole(a) && Sequenced(a.q.steps) && i < |a.q.steps|
    requires outputs == Sweep(a, i).outputs
    ensures SameApproval(Judge(a, outputs, a.q.steps[i]), Judge(b, outputs, a.q.steps[i]))
  {
    hide Judge, StepInput, Crosses, SignatureFor, Approved, SweepAll, Approves, OutputSignature;
    var step := a.q.steps[i];
    StepApproval(a, outputs, step);
    StepApproval(b, outputs, step);
    var resolved := StepInput(step, a.q.inputs, outputs);
    if resolved.Some? {
      var signature := SignatureFor(a.q, step, resolved.value);
      CrossesIgnoresOutput(a, b, step, signature);
      if Crosses(a, step, signature) {
        CandidateAt(a, i);
        ApprovedExactly(a, outputs, step);
        assert ApprovedSlip(a, (step.id, signature));
        SameRecordSameCandidate(a, b, outputs, step);
      }
    }
  }

  lemma SameRecordSameCandidate(a: Desk, b: Desk, outputs: map<string, Value>, step: Step)
    requires b == a.(index := b.index)
    requires StepInput(step, a.q.inputs, outputs).Some?
    requires var k := (step.id, SignatureFor(a.q, step, StepInput(step, a.q.inputs, outputs).value));
      k in a.index && k in b.index && a.index[k] == b.index[k]
    ensures Judge(a, outputs, step) == Judge(b, outputs, step)
  {
    hide StepInput, SignatureFor, Latest, TrustOf, JobOf, Decide, EvidenceOf;
  }

  lemma {:induction false} SweptAlike(a: Desk, b: Desk, k: nat)
    requires Replaced(a, b) && Whole(a) && Sequenced(a.q.steps) && k <= |a.q.steps|
    ensures Sweep(a, k).outputs == Sweep(b, k).outputs
    ensures |Sweep(a, k).candidates| == |Sweep(b, k).candidates| == k
    ensures forall i :: 0 <= i < k ==> SameApproval(Sweep(a, k).candidates[i], Sweep(b, k).candidates[i])
  {
    hide Judge, Replaced, Whole, Approved;
    if k > 0 {
      SameSteps(a, b);
      SweptAlike(a, b, k - 1);
      JudgedAlike(a, b, Sweep(a, k - 1).outputs, k - 1);
    }
  }

  ghost predicate AllSameApproval(cs: seq<Candidate>, es: seq<Candidate>) {
    |cs| == |es| && forall i :: 0 <= i < |cs| ==> SameApproval(cs[i], es[i])
  }

  lemma {:induction false} SameApprovalsSameItems(cs: seq<Candidate>, es: seq<Candidate>)
    requires AllSameApproval(cs, es) && Sorted(cs).Some? && Sorted(es).Some?
    ensures Sorted(cs).value.0 == Sorted(es).value.0
  {
    hide Approved, ItemOf, ItemGuard, NoticeGuard, NoticeOf;
    if cs != [] {
      assert SameApproval(cs[|cs| - 1], es[|es| - 1]);
      SameApprovalsSameItems(cs[..|cs| - 1], es[..|es| - 1]);
    }
  }

  /** Replacing the outputs of records the gate does not approve changes neither the approved items nor the
      inherited outputs. */
  lemma RejectedOutputsDoNotInterfere(a: Desk, b: Desk)
    requires Replaced(a, b) && Whole(a) && WellFormed(a)
    ensures SweepAll(a).outputs == SweepAll(b).outputs
    ensures Evaluated(a).Some? && Evaluated(b).Some?
    ensures Evaluated(a).value.context.items == Evaluated(b).value.context.items
  {
    hide Evaluated, Replaced, Whole, Sorted, IsIdentifier;
    assert WellFormed(b) by { ReplacedIsWellFormed(a, b); }
    EvaluationIsTotal(a);
    EvaluationIsTotal(b);
    SweptAlike(a, b, |a.q.steps|);
    SameSteps(a, b);
    ItemsAndNoticesPartition(a);
    ItemsAndNoticesPartition(b);
    SameApprovalsSameItems(SweepAll(a).candidates, SweepAll(b).candidates);
  }

  lemma SameSteps(a: Desk, b: Desk)
    requires Replaced(a, b)
    ensures a.q == b.q
  {
  }

  lemma ReplacedIsWellFormed(a: Desk, b: Desk)
    requires Replaced(a, b) && WellFormed(a)
    ensures WellFormed(b)
  {
    hide IsIdentifier, ApprovedSlip, OutputSignature, Sequenced;
    forall k | k in b.index ensures NamedSource(b.index[k]) {
      assert SameButOutput(a.index[k], b.index[k]) && NamedSource(a.index[k]);
    }
  }
}
