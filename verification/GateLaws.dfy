/** The gate never refuses its own objects, approves exactly what all five verdicts allow, hands over work that
    is closed under dependencies, and is neither swayed by work it rejects nor by the order of records. */
module GateLaws {
  import opened Options
  import opened Json
  import opened Topology
  import opened Types
  import opened HandoffTypes
  import opened Core
  import opened Store
  import opened Planning
  import opened EngineLaws
  import opened Gate

  // ----- one decision ---------------------------------------------------------------------

  /** The verdicts with the external job counted as absent. */
  function WithoutJob(v: Verdicts): Verdicts {
    v.(job := Verdict(NotApplicable, v.job.code))
  }

  /** `_decide` on its own reuses one family that `approves_inheritance` refuses: verdicts whose external job was
      not evaluated and whose other four verdicts approve. */
  lemma DecideReusesExactly(v: Verdicts)
    ensures Decide(v).0 == Reuse <==> Approves(v) || (v.job.status == JobUnevaluated && Approves(WithoutJob(v)))
    ensures Decide(v).0 == PendingDependency <==> v.dependency.status == Pending
  {
  }

  /** The fallback is never approved and nothing unfound is: an approved candidate is the record stored for the
      step under the signature of its present input, and all five verdicts approve it. */
  ghost predicate Crosses(d: Desk, step: Step, signature: Signature) {
    && (step.id, signature) in d.index
    && Approves(VerdictsFor(d, step, signature, d.index[(step.id, signature)], true))
  }

  lemma FoundIsDecided(d: Desk, step: Step, signature: Signature, r: WorkResult, matched: bool)
    ensures var c := FoundCandidate(d, step, signature, r, matched);
      && c.stepId == c.decision.stepId == step.id && c.result == Some(r)
      && c.decision.verdicts == VerdictsFor(d, step, signature, r, matched)
      && (Approved(c) <==> Approves(VerdictsFor(d, step, signature, r, matched)))
      && (Approved(c) ==> matched)
      && c.decision.decision != PendingDependency
  {
    hide Decide, TrustOf, AuthorizationOf, Approves;
    DecideReusesExactly(VerdictsFor(d, step, signature, r, matched));
    UnmatchedIsNotApproved(d, step, signature, r, matched);
  }

  lemma UnmatchedIsNotApproved(d: Desk, step: Step, signature: Signature, r: WorkResult, matched: bool)
    ensures Approves(VerdictsFor(d, step, signature, r, matched)) ==> matched
    ensures JobOf(r).status != JobUnevaluated
  {
    hide TrustOf, AuthorizationOf, IsFresh, ArtifactUsable;
  }

  /** Shape of every candidate the gate makes. */
  ghost predicate Shaped(c: Candidate, step: Step) {
    && c.stepId == c.decision.stepId == step.id
    && (Approved(c) <==> Approves(c.decision.verdicts))
    && (Approved(c) ==> c.result.Some?)
  }

  lemma ApprovedExactly(d: Desk, outputs: map<string, Value>, step: Step)
    ensures var c := Judge(d, outputs, step);
      && Shaped(c, step)
      && (Approved(c) <==>
          && StepInput(step, d.q.inputs, outputs).Some?
          && Crosses(d, step, SignatureFor(d.q, step, StepInput(step, d.q.inputs, outputs).value)))
      && (Approved(c) ==>
          var slip := (step.id, SignatureFor(d.q, step, StepInput(step, d.q.inputs, outputs).value));
          c.result == Some(d.index[slip]) && SlipOf(d.index[slip]) == slip && d.index[slip].provenance.Some?
          && d.index[slip].outputSignature == OutputSignature(d.index[slip].output))
      && (c.decision.decision == PendingDependency <==> StepInput(step, d.q.inputs, outputs).None?)
  {
    hide StepInput, SignatureFor, JudgeInput, Crosses, OutputSignature, Approves;
    var resolved := StepInput(step, d.q.inputs, outputs);
    if resolved.Some? {
      InputApprovedExactly(d, step, SignatureFor(d.q, step, resolved.value));
    } else {
      PendingIsNotApproved(step);
    }
  }

  lemma PendingIsNotApproved(step: Step)
    ensures Shaped(PendingCandidate(step), step) && !Approved(PendingCandidate(step))
  {
  }

  lemma InputApprovedExactly(d: Desk, step: Step, signature: Signature)
    ensures var c := JudgeInput(d, step, signature);
      && Shaped(c, step)
      && (Approved(c) <==> Crosses(d, step, signature))
      && (Approved(c) ==>
          var slip := (step.id, signature);
          c.result == Some(d.index[slip]) && SlipOf(d.index[slip]) == slip && d.index[slip].provenance.Some?
          && d.index[slip].outputSignature == OutputSignature(d.index[slip].output))
      && c.decision.decision != PendingDependency
  {
    hide FoundCandidate, Latest, OutputSignature, VerdictsFor;
    var exact, latest := Exact(d.index, step.id, signature), Latest(d.order, d.index, step.id);
    if exact.Some? {
      FoundIsDecided(d, step, signature, exact.value, true);
      if Crosses(d, step, signature) { ApprovedRecord(d, step, signature, exact.value); }
    } else if latest.Some? {
      FoundIsDecided(d, step, signature, latest.value, false);
    }
  }

  lemma ApprovedRecord(d: Desk, step: Step, signature: Signature, r: WorkResult)
    requires Approves(VerdictsFor(d, step, signature, r, true))
    ensures SlipOf(r) == (step.id, signature) && r.provenance.Some? && r.outputSignature == OutputSignature(r.output)
    ensures Matches(r, d.q.scope, d.q.w, step, signature, d.q.now)
  {
    hide AgentAllowed, ProviderAllowed, OutputSignature, IsFresh, ArtifactUsable;
  }

  // ----- the sweep, step by step ----------------------------------------------------------

  /** How far the sweep is: one candidate per step in order; the outputs are those of the approved ones. */
  ghost predicate SweptSoFar(d: Desk, s: Swept, k: nat)
    requires k <= |d.q.steps|
  {
    var steps := d.q.steps;
    && |s.candidates| == k
    && (forall i :: 0 <= i < k ==> Shaped(s.candidates[i], steps[i]))
    && (forall i :: 0 <= i < k ==> (Approved(s.candidates[i]) <==> steps[i].id in s.outputs))
    && (forall i :: 0 <= i < k && Approved(s.candidates[i]) ==>
      s.outputs[steps[i].id] == s.candidates[i].result.value.output)
    && (forall i :: k <= i < |steps| ==> steps[i].id !in s.outputs)
    && (forall id :: id in s.outputs ==> id in Ids(steps[..k]))
  }

  lemma CollectKeeps(d: Desk, s: Swept, k: nat, c: Candidate)
    requires Sequenced(d.q.steps) && k < |d.q.steps| && SweptSoFar(d, s, k) && Shaped(c, d.q.steps[k])
    ensures SweptSoFar(d, Collect(s, c), k + 1)
  {
    hide Approves;
    assert Ids(d.q.steps[..k + 1]) == Ids(d.q.steps[..k]) + [d.q.steps[k].id];
  }

  lemma {:induction false} SweepKeepsShape(d: Desk, k: nat)
    requires Sequenced(d.q.steps) && k <= |d.q.steps|
    ensures SweptSoFar(d, Sweep(d, k), k)
  {
    hide Judge, Shaped, Collect;
    if k > 0 {
      SweepKeepsShape(d, k - 1);
      ApprovedExactly(d, Sweep(d, k - 1).outputs, d.q.steps[k - 1]);
      CollectKeeps(d, Sweep(d, k - 1), k - 1, Judge(d, Sweep(d, k - 1).outputs, d.q.steps[k - 1]));
    }
  }

  /** What the sweep has settled after `k` steps stays settled. */
  ghost predicate Settled(d: Desk, s: Swept, s': Swept, k: nat, m: nat)
    requires k <= m <= |d.q.steps|
  {
    && |s.candidates| == k && |s'.candidates| == m && s'.candidates[..k] == s.candidates
    && Extends(s.outputs, s'.outputs)
    && (forall i :: 0 <= i < k ==> (d.q.steps[i].id in s'.outputs <==> d.q.steps[i].id in s.outputs))
  }

  lemma {:induction false} SweepStands(d: Desk, k: nat, m: nat)
    requires Sequenced(d.q.steps) && k <= m <= |d.q.steps|
    ensures Settled(d, Sweep(d, k), Sweep(d, m), k, m)
    decreases m
  {
    hide Judge, Shaped, Settled, SweptSoFar;
    SweepKeepsShape(d, k);
    if k < m {
      SweepStands(d, k, m - 1);
      SweepKeepsShape(d, m - 1);
      ApprovedExactly(d, Sweep(d, m - 1).outputs, d.q.steps[m - 1]);
      OneMoreStands(d, Sweep(d, k), Sweep(d, m - 1), k, m - 1, Judge(d, Sweep(d, m - 1).outputs, d.q.steps[m - 1]));
    } else {
      SettledAtOnce(d, Sweep(d, k), k);
    }
  }

  lemma SettledAtOnce(d: Desk, s: Swept, k: nat)
    requires k <= |d.q.steps| && SweptSoFar(d, s, k)
    ensures Settled(d, s, s, k, k)
  {
    hide Shaped;
    assert s.candidates[..k] == s.candidates;
  }

  lemma OneMoreStands(d: Desk, s: Swept, s': Swept, k: nat, m: nat, c: Candidate)
    requires Sequenced(d.q.steps) && k <= m < |d.q.steps| && SweptSoFar(d, s', m) && Shaped(c, d.q.steps[m])
    requires Settled(d, s, s', k, m)
    ensures Settled(d, s, Collect(s', c), k, m + 1)
  {
    hide Approves;
    assert forall i :: 0 <= i < k ==> d.q.steps[i].id != d.q.steps[m].id;
  }

  lemma CandidateAt(d: Desk, i: nat)
    requires Sequenced(d.q.steps) && i < |d.q.steps|
    ensures |SweepAll(d).candidates| == |d.q.steps|
    ensures SweepAll(d).candidates[i] == Judge(d, Sweep(d, i).outputs, d.q.steps[i])
  {
    hide Judge;
    SweepStands(d, i + 1, |d.q.steps|);
    SweepKeepsShape(d, i);
    assert SweepAll(d).candidates[i] == SweepAll(d).candidates[..i + 1][i];
  }

  /** A step is reused exactly when all five of its verdicts approve, and then its output is inherited. */
  lemma ReusedExactlyWhenApproved(d: Desk, i: nat)
    requires Sequenced(d.q.steps) && i < |d.q.steps|
    ensures |SweepAll(d).candidates| == |d.q.steps|
    ensures var c, id := SweepAll(d).candidates[i], d.q.steps[i].id;
      && c.stepId == id
      && (c.decision.decision == Reuse <==> Approves(c.decision.verdicts))
      && (c.decision.decision == Reuse <==> id in SweepAll(d).outputs)
      && (c.decision.decision == Reuse ==> c.result.Some? && SweepAll(d).outputs[id] == c.result.value.output)
  {
    hide Judge, Approves;
    SweepKeepsShape(d, |d.q.steps|);
  }

  // ----- dependencies ---------------------------------------------------------------------

  /** Available at the i-th step exactly when approved in the end and supplied. */
  lemma InputKnownWhen(d: Desk, i: nat)
    requires Sequenced(d.q.steps) && i < |d.q.steps|
    ensures StepInput(d.q.steps[i], d.q.inputs, Sweep(d, i).outputs).Some? <==>
      DependencySet(d.q.steps[i]) <= SweepAll(d).outputs.Keys && !MissesInput(d.q, d.q.steps[i])
  {
    hide StepInput, Judge, Shaped, MissesInput;
    var step, now, final := d.q.steps[i], Sweep(d, i).outputs, SweepAll(d).outputs;
    SweepStands(d, i, |d.q.steps|);
    InputKnownExactly(d.q, step, now);
    forall dep | dep in DependencySet(step) ensures dep in final <==> dep in now {
      var j :| 0 <= j < |d.q.steps[..i]| && Ids(d.q.steps[..i])[j] == dep;
      assert d.q.steps[j].id == dep;
    }
  }

  /** A step waits exactly when a direct dependency is not approved or an input it binds was not supplied. */
  lemma PendingExactlyWhen(d: Desk, i: nat)
    requires Sequenced(d.q.steps) && i < |d.q.steps|
    ensures |SweepAll(d).candidates| == |d.q.steps|
    ensures SweepAll(d).candidates[i].decision.decision == PendingDependency <==>
      !(DependencySet(d.q.steps[i]) <= SweepAll(d).outputs.Keys) || MissesInput(d.q, d.q.steps[i])
  {
    hide StepInput, Judge, Crosses, SweepAll;
    CandidateAt(d, i);
    InputKnownWhen(d, i);
    ApprovedExactly(d, Sweep(d, i).outputs, d.q.steps[i]);
  }

  /** Every transitive dependency of an approved step is approved. */
  lemma {:induction false} ApprovedWorkIsClosed(d: Desk, p: seq<Step>)
    requires Sequenced(d.q.steps) && StepChain(d.q.steps, p)
    requires p[|p| - 1].id in SweepAll(d).outputs
    ensures forall i :: 0 <= i < |p| ==> p[i].id in SweepAll(d).outputs
  {
    hide SweepAll, StepInput, Judge, Crosses, Approves;
    if |p| > 1 {
      var last := p[|p| - 1];
      var i :| 0 <= i < |d.q.steps| && d.q.steps[i] == last;
      ReusedExactlyWhenApproved(d, i);
      PendingExactlyWhen(d, i);
      ApprovedWorkIsClosed(d, p[..|p| - 1]);
    }
  }

  // ----- totality -------------------------------------------------------------------------

  /** What the constructors of workflows, steps and provenance already demand: trimmed non-empty names. */
  ghost predicate WellFormed(d: Desk) {
    && Sequenced(d.q.steps)
    && IsIdentifier(d.q.w.id) && IsIdentifier(d.q.w.version)
    && (forall i :: 0 <= i < |d.q.steps| ==> IsIdentifier(d.q.steps[i].id))
    && (forall k :: k in d.index ==> NamedSource(d.index[k]))
  }

  ghost predicate NamedSource(r: WorkResult) {
    match r.provenance
    case None => true
    case Some(p) => IsIdentifier(p.category) && IsIdentifier(p.agentId) && IsIdentifier(p.sessionId)
  }

  lemma PrefixedCode(prefix: string, code: string)
    requires IsIdentifier(prefix) && IsIdentifier(code)
    ensures IsIdentifier(prefix + code)
  {
  }

  lemma ValidityCodes()
    ensures IsIdentifier("PROJECT_SCOPE_MISMATCH") && IsIdentifier("WORKFLOW_MISMATCH")
      && IsIdentifier("STEP_MISMATCH") && IsIdentifier("IMPLEMENTATION_MISMATCH")
  {
  }

  lemma FreshnessCodes()
    ensures IsIdentifier("INPUT_SIGNATURE_MISMATCH") && IsIdentifier("RESULT_EXPIRED")
      && IsIdentifier("ARTIFACT_UNAVAILABLE") && IsIdentifier("VALID_MATCHING_RESULT")
  {
  }

  lemma TrustCodes()
    ensures IsIdentifier("PROVENANCE_MISSING") && IsIdentifier("OUTPUT_SIGNATURE_MISMATCH")
      && IsIdentifier("PROVENANCE_COMPLETE") && IsIdentifier(UPSTREAM.code)
  {
  }

  lemma PolicyCodes()
    ensures IsIdentifier("AUTHORIZATION_REQUIRES_TRUSTED_PROVENANCE") && IsIdentifier("NO_POLICY_FOR_WORK_CATEGORY")
      && IsIdentifier("POLICY_PROJECT_MISMATCH") && IsIdentifier("RECIPIENT_PROJECT_MISMATCH")
  {
  }

  lemma ProviderCodes()
    ensures IsIdentifier("RECIPIENT_AGENT_NOT_ALLOWED") && IsIdentifier("PROVIDER_RULE_SAME_PROVIDER_VIOLATED")
      && IsIdentifier("PROVIDER_NOT_ALLOWLISTED") && IsIdentifier("EXTERNAL_EXPOSURE_BLOCKED")
      && IsIdentifier("POLICY_AUTHORIZED")
  {
  }

  lemma JobCodes()
    ensures IsIdentifier("NO_EXTERNAL_JOB") && IsIdentifier("EXTERNAL_JOB_SETTLED")
      && IsIdentifier("EXTERNAL_JOB_RECONCILIATION_REQUIRED") && IsIdentifier("EXTERNAL_JOB_UNSETTLED")
      && IsIdentifier("EXTERNAL_JOB_STATE_UNKNOWN")
  {
  }

  lemma UnevaluatedCodes()
    ensures IsIdentifier("VALIDITY_REQUIRES_EFFECTIVE_INPUT") && IsIdentifier("TRUST_REQUIRES_EFFECTIVE_INPUT")
      && IsIdentifier("AUTHORIZATION_REQUIRES_EFFECTIVE_INPUT") && IsIdentifier("DEPENDENCY_OUTPUT_UNAVAILABLE")
  {
  }

  lemma RecordCodes()
    ensures IsIdentifier("EXTERNAL_JOB_REQUIRES_CANDIDATE") && IsIdentifier("PENDING_DEPENDENCY_OUTPUT")
      && IsIdentifier("RECORD_UNDECODABLE") && IsIdentifier("NO_CANDIDATE_WORK")
  {
  }

  lemma DecisionCodes()
    ensures IsIdentifier("BLOCKED_RECORD_UNDECODABLE") && IsIdentifier("RERUN_NO_CANDIDATE_WORK")
      && IsIdentifier("REUSE_APPROVED_BY_POLICY") && IsIdentifier("BLOCKED_") && IsIdentifier("RERUN_")
  {
  }

  /** Every verdict on a found record carries a proper reason code. */
  lemma FoundCodes(d: Desk, step: Step, signature: Signature, r: WorkResult, matched: bool)
    ensures VerdictsGuard(VerdictsFor(d, step, signature, r, matched))
  {
    hide IsIdentifier, IsFresh, ArtifactUsable, OutputSignature, AgentAllowed, ProviderAllowed;
    ValidityCodes();
    FreshnessCodes();
    TrustCodes();
    PolicyCodes();
    ProviderCodes();
    JobCodes();
  }

  lemma DecideCode(v: Verdicts)
    requires VerdictsGuard(v)
    ensures IsIdentifier(Decide(v).1)
  {
    hide IsIdentifier;
    DecisionCodes();
    RecordCodes();
    PrefixedCode("BLOCKED_", v.job.code);
    PrefixedCode("RERUN_", v.validity.code);
    PrefixedCode("BLOCKED_", v.trust.code);
    PrefixedCode("BLOCKED_", v.authorization.code);
  }

  lemma FoundIsGuarded(d: Desk, step: Step, signature: Signature, r: WorkResult, matched: bool)
    requires IsIdentifier(step.id)
    ensures CandidateGuard(FoundCandidate(d, step, signature, r, matched))
  {
    hide IsIdentifier, VerdictsFor, VerdictsGuard;
    FoundIsDecided(d, step, signature, r, matched);
    FoundCodes(d, step, signature, r, matched);
    DecideCode(VerdictsFor(d, step, signature, r, matched));
  }

  lemma UnfoundIsGuarded(step: Step, signature: Signature)
    requires IsIdentifier(step.id)
    ensures CandidateGuard(PendingCandidate(step))
    ensures CandidateGuard(UndecodableCandidate(step, signature)) && CandidateGuard(EmptyCandidate(step, signature))
  {
    hide IsIdentifier;
    UnevaluatedCodes();
    RecordCodes();
    DecisionCodes();
    TrustCodes();
    PolicyCodes();
    JobCodes();
  }

  lemma JudgedIsGuarded(d: Desk, outputs: map<string, Value>, step: Step)
    requires IsIdentifier(step.id)
    ensures CandidateGuard(Judge(d, outputs, step))
  {
    hide IsIdentifier, CandidateGuard, FoundCandidate, PendingCandidate, UndecodableCandidate, EmptyCandidate,
      StepInput, Latest, SignatureFor;
    var resolved := StepInput(step, d.q.inputs, outputs);
    if resolved.None? {
      UnfoundIsGuarded(step, Signature("", ""));
    } else {
      var signature := SignatureFor(d.q, step, resolved.value);
      var exact, latest := Exact(d.index, step.id, signature), Latest(d.order, d.index, step.id);
      UnfoundIsGuarded(step, signature);
      if exact.Some? {
        FoundIsGuarded(d, step, signature, exact.value, true);
      } else if latest.Some? {
        FoundIsGuarded(d, step, signature, latest.value, false);
      }
    }
  }

  lemma {:induction false} GuardsNeverFire(d: Desk, k: nat)
    requires WellFormed(d) && k <= |d.q.steps|
    ensures Guarded(d, k) == Some(Sweep(d, k))
  {
    hide Judge, CandidateGuard, IsIdentifier, Collect;
    if k > 0 {
      GuardsNeverFire(d, k - 1);
      JudgedIsGuarded(d, Sweep(d, k - 1).outputs, d.q.steps[k - 1]);
    }
  }

  // ----- items and notices ----------------------------------------------------------------

  /** A guarded candidate that, when approved, has everything an item needs. */
  ghost predicate Transferable(c: Candidate) {
    && CandidateGuard(c)
    && (Approved(c) ==> c.result.Some? && Bears(c.result.value))
  }

  ghost predicate Bears(r: WorkResult) {
    r.provenance.Some? && NamedSource(r) && r.outputSignature == OutputSignature(r.output)
  }

  /** The ids, in order, that are (or are not) in a set. */
  function Select(ids: seq<string>, chosen: set<string>, within: bool): (r: seq<string>)
    ensures forall id :: id in r <==> id in ids && (id in chosen) == within
  {
    if ids == [] then [] else
    var last := ids[|ids| - 1];
    var rest := Select(ids[..|ids| - 1], chosen, within);
    if (last in chosen) == within then rest + [last] else rest
  }

  function ItemSteps(items: seq<ApprovedItem>): (ids: seq<string>)
    ensures |ids| == |items| && forall i :: 0 <= i < |ids| ==> ids[i] == items[i].stepId
  {
    seq(|items|, i requires 0 <= i < |items| => items[i].stepId)
  }

  function NoticeSteps(notices: seq<Notice>): (ids: seq<string>)
    ensures |ids| == |notices| && forall i :: 0 <= i < |ids| ==> ids[i] == notices[i].stepId
  {
    seq(|notices|, i requires 0 <= i < |notices| => notices[i].stepId)
  }

  /** Where items and notices of candidates for `ids` come from, given the approved outputs. */
  ghost predicate SplitOf(ids: seq<string>, outputs: map<string, Value>, items: seq<ApprovedItem>, notices: seq<Notice>)
  {
    && ItemSteps(items) == Select(ids, outputs.Keys, true)
    && NoticeSteps(notices) == Select(ids, outputs.Keys, false)
    && (forall i :: 0 <= i < |items| ==> items[i].decision.decision == Reuse)
    && (forall i :: 0 <= i < |items| ==> items[i].stepId in outputs && outputs[items[i].stepId] == items[i].output)
  }

  lemma ItemOfTransferable(c: Candidate)
    requires Transferable(c) && Approved(c)
    ensures ItemOf(c).Some? && ItemGuard(ItemOf(c).value)
    ensures var item := ItemOf(c).value;
      item.stepId == c.stepId && item.output == c.result.value.output && item.decision == c.decision
  {
    hide IsIdentifier, OutputSignature, Approves;
  }

  /** Candidates for `ids` whose approved ones carry `outputs`. */
  ghost predicate Candidacies(candidates: seq<Candidate>, ids: seq<string>, outputs: map<string, Value>) {
    && |candidates| == |ids|
    && (forall i :: 0 <= i < |ids| ==> Candidacy(candidates[i], ids[i], outputs))
  }

  ghost predicate Candidacy(c: Candidate, id: string, outputs: map<string, Value>) {
    && Transferable(c) && c.stepId == id
    && (Approved(c) <==> id in outputs)
    && (Approved(c) ==> c.result.Some? && outputs[id] == c.result.value.output)
  }

  lemma SelectAppend(ids: seq<string>, id: string, chosen: set<string>, within: bool)
    ensures Select(ids + [id], chosen, within) ==
      Select(ids, chosen, within) + if (id in chosen) == within then [id] else []
  {
    assert (ids + [id])[..|ids|] == ids;
  }

  lemma SplitItem(ids: seq<string>, outputs: map<string, Value>, items: seq<ApprovedItem>, notices: seq<Notice>,
    item: ApprovedItem)
    requires SplitOf(ids, outputs, items, notices)
    requires item.decision.decision == Reuse && item.stepId in outputs && outputs[item.stepId] == item.output
    ensures SplitOf(ids + [item.stepId], outputs, items + [item], notices)
  {
    hide Select;
    SelectAppend(ids, item.stepId, outputs.Keys, true);
    SelectAppend(ids, item.stepId, outputs.Keys, false);
    assert ItemSteps(items + [item]) == ItemSteps(items) + [item.stepId];
  }

  lemma SplitNotice(ids: seq<string>, outputs: map<string, Value>, items: seq<ApprovedItem>, notices: seq<Notice>,
    notice: Notice)
    requires SplitOf(ids, outputs, items, notices) && notice.stepId !in outputs
    ensures SplitOf(ids + [notice.stepId], outputs, items, notices + [notice])
  {
    hide Select;
    SelectAppend(ids, notice.stepId, outputs.Keys, true);
    SelectAppend(ids, notice.stepId, outputs.Keys, false);
    assert NoticeSteps(notices + [notice]) == NoticeSteps(notices) + [notice.stepId];
  }

  lemma SplitOneMore(ids: seq<string>, outputs: map<string, Value>, items: seq<ApprovedItem>, notices: seq<Notice>,
    c: Candidate, id: string)
    requires SplitOf(ids, outputs, items, notices) && Candidacy(c, id, outputs)
    ensures Approved(c) ==>
      ItemOf(c).Some? && ItemGuard(ItemOf(c).value) && SplitOf(ids + [id], outputs, items + [ItemOf(c).value], notices)
    ensures !Approved(c) ==> NoticeGuard(NoticeOf(c)) && SplitOf(ids + [id], outputs, items, notices + [NoticeOf(c)])
  {
    hide Transferable, ItemGuard, ItemOf, NoticeGuard, NoticeOf, SplitOf;
    if Approved(c) {
      ItemOfTransferable(c);
      SplitItem(ids, outputs, items, notices, ItemOf(c).value);
    } else {
      NoticeOfTransferable(c);
      SplitNotice(ids, outputs, items, notices, NoticeOf(c));
    }
  }

  lemma {:induction false} CandidatesSplit(candidates: seq<Candidate>, ids: seq<string>, outputs: map<string, Value>)
    requires Candidacies(candidates, ids, outputs)
    ensures Sorted(candidates).Some?
    ensures SplitOf(ids, outputs, Sorted(candidates).value.0, Sorted(candidates).value.1)
  {
    hide ItemGuard, ItemOf, NoticeOf, NoticeGuard, Approved, Candidacy, SplitOf;
    if candidates == [] {
      NothingSplits(ids, outputs);
    } else {
      var n := |candidates| - 1;
      CandidatesSplit(candidates[..n], ids[..n], outputs);
      var (items, notices) := Sorted(candidates[..n]).value;
      SplitOneMore(ids[..n], outputs, items, notices, candidates[n], ids[n]);
      assert ids[..n] + [ids[n]] == ids;
    }
  }

  lemma NothingSplits(ids: seq<string>, outputs: map<string, Value>)
    requires ids == []
    ensures SplitOf(ids, outputs, [], [])
  {
  }

  lemma NoticeOfTransferable(c: Candidate)
    requires Transferable(c) && !Approved(c)
    ensures NoticeGuard(NoticeOf(c)) && NoticeOf(c).stepId == c.stepId
  {
    hide IsIdentifier, Approves;
  }

  lemma SweptIsTransferable(d: Desk, i: nat)
    requires WellFormed(d) && i < |d.q.steps|
    ensures |SweepAll(d).candidates| == |d.q.steps| && Transferable(SweepAll(d).candidates[i])
  {
    hide Judge, CandidateGuard, IsIdentifier, Approves, VerdictsFor, NamedSource, StepInput, OutputSignature;
    CandidateAt(d, i);
    JudgedIsGuarded(d, Sweep(d, i).outputs, d.q.steps[i]);
    ApprovedExactly(d, Sweep(d, i).outputs, d.q.steps[i]);
  }

  /** The approved items and the excluded notices partition the workflow's steps, each in processing order, and the
      items carry the inherited outputs. */
  lemma ItemsAndNoticesPartition(d: Desk)
    requires WellFormed(d)
    ensures Sorted(SweepAll(d).candidates).Some?
    ensures var (items, notices) := Sorted(SweepAll(d).candidates).value;
      SplitOf(Ids(d.q.steps), SweepAll(d).outputs, items, notices)
  {
    hide Judge, Transferable, Approved, IsIdentifier, Shaped, Sorted, SplitOf;
    var s, n := SweepAll(d), |d.q.steps|;
    SweepKeepsShape(d, n);
    forall i | 0 <= i < n ensures Candidacy(s.candidates[i], Ids(d.q.steps)[i], s.outputs) {
      SweptIsTransferable(d, i);
      ShapedNames(s.candidates[i], d.q.steps[i]);
    }
    CandidatesSplit(s.candidates, Ids(d.q.steps), s.outputs);
  }

  lemma ShapedNames(c: Candidate, step: Step)
    requires Shaped(c, step)
    ensures c.stepId == step.id && (Approved(c) ==> c.result.Some?)
  {
  }

  lemma {:induction false} SelectIsDistinct(ids: seq<string>, chosen: set<string>, within: bool)
    requires Distinct(ids)
    ensures Distinct(Select(ids, chosen, within))
  {
    if ids != [] {
      var n := |ids| - 1;
      SelectIsDistinct(ids[..n], chosen, within);
      var rest := Select(ids[..n], chosen, within);
      forall i | 0 <= i < |rest| ensures rest[i] != ids[n] {
        assert rest[i] in rest;
      }
    }
  }

  lemma SplitPassesContextGuard(ids: seq<string>, outputs: map<string, Value>, c: ApprovedContext)
    requires Distinct(ids) && SplitOf(ids, outputs, c.items, c.blocked)
    ensures ContextGuard(c)
  {
    SelectIsDistinct(ids, outputs.Keys, true);
    var a, b := Select(ids, outputs.Keys, true), Select(ids, outputs.Keys, false);
    forall i, j | 0 <= i < j < |c.items| ensures c.items[i].stepId != c.items[j].stepId {
      assert a[i] != a[j];
    }
    forall i, j | 0 <= i < |c.items| && 0 <= j < |c.blocked| ensures c.items[i].stepId != c.blocked[j].stepId {
      assert a[i] in a && b[j] in b;
    }
  }

  /** The gate is total: on every well-formed request and store no constructor guard fires, also with undecodable
      records. */
  lemma EvaluationIsTotal(d: Desk)
    requires WellFormed(d)
    ensures Evaluated(d).Some?
    ensures Evaluated(d).value.candidates == SweepAll(d).candidates
    ensures (Evaluated(d).value.context.items, Evaluated(d).value.context.blocked)
      == Sorted(SweepAll(d).candidates).value
  {
    hide Judge, Guarded, SplitOf, Sorted, IsIdentifier, NamedSource;
    var n, s := |d.q.steps|, SweepAll(d);
    GuardsNeverFire(d, n);
    ItemsAndNoticesPartition(d);
    var (items, notices) := Sorted(s.candidates).value;
    var id := IdOf(d.q, d.recipient, d.policies, s.candidates);
    var context := ApprovedContext(id, d.q.scope, d.recipient, items, notices);
    assert Distinct(Ids(d.q.steps));
    SplitPassesContextGuard(Ids(d.q.steps), s.outputs, context);
    EntriesAreGuarded(d);
  }

  lemma EntriesAreGuarded(d: Desk)
    requires WellFormed(d)
    ensures forall i :: 0 <= i < |EntriesOf(SweepAll(d).candidates)| ==>
      EntryGuard(EntriesOf(SweepAll(d).candidates)[i])
  {
    hide Judge, IsIdentifier, Approves, VerdictsGuard, SweepAll;
    forall i | 0 <= i < |EntriesOf(SweepAll(d).candidates)|
      ensures EntryGuard(EntriesOf(SweepAll(d).candidates)[i])
    {
      SweepKeepsAll(d);
      SweptIsTransferable(d, i);
    }
  }

  lemma SweepKeepsAll(d: Desk)
    requires Sequenced(d.q.steps)
    ensures |SweepAll(d).candidates| == |d.q.steps|
  {
    SweepKeepsShape(d, |d.q.steps|);
  }

  /** The names a request and a store are made of are proper: what their constructors check. */
  ghost predicate ProperNames(w: Workflow, c: Client) {
    && IsIdentifier(w.id) && IsIdentifier(w.version)
    && (forall s :: s in w.steps ==> IsIdentifier(s.id))
    && (forall k :: k in c.entities && c.entities[k].Work? ==> NamedSource(c.entities[k].result))
  }

  lemma DeskIsWellFormed(request: Request, now: int, recipient: Principal, policies: PolicySet, c: Client,
    owner: Scope, order: DigestOrder)
    requires Accepted(request) && Consistent(c) && ProperNames(request.workflow, c)
    ensures WellFormed(DeskOf(request, now, recipient, policies, c, owner, order))
  {
    hide IsIdentifier, NamedSource, ValidWorkflow, ValidInputs, Ordered, Sequenced, Consistent, DamagedSteps;
    var d := DeskOf(request, now, recipient, policies, c, owner, order);
    OrderedIsSequenced(request.workflow);
    OrderedHasAllSteps(request.workflow);
    forall k | k in d.index ensures NamedSource(d.index[k]) {
      IndexFinds(c, owner, request.workflow.id, k.0, k.1);
      assert k == (k.0, k.1);
    }
  }

  /** Every accepted request is evaluated, whatever the store holds, undecodable records included. */
  lemma AcceptedRequestsAreEvaluated(request: Request, now: int, recipient: Principal, policies: PolicySet, c: Client,
    owner: Scope, order: DigestOrder)
    requires Accepted(request) && Consistent(c) && ProperNames(request.workflow, c)
    ensures Evaluated(DeskOf(request, now, recipient, policies, c, owner, order)).Some?
  {
    hide Evaluated, WellFormed, ProperNames, ValidWorkflow, ValidInputs, Consistent, DeskOf;
    DeskIsWellFormed(request, now, recipient, policies, c, owner, order);
    EvaluationIsTotal(DeskOf(request, now, recipient, policies, c, owner, order));
  }
}
