/** `build_revision_plan`: a preview of what a run would reuse, without executing anything. */
module Planning {
  import opened Options
  import opened Json
  import opened JsonText
  import opened Topology
  import opened Types
  import opened Core
  import opened Store

  /** A validated request: its steps in processing order, its inputs normalized. */
  datatype Query = Query(scope: Scope, w: Workflow, steps: seq<Step>, inputs: map<string, Value>, now: int)

  predicate Accepted(r: Request) {
    ValidWorkflow(r.workflow) && ValidInputs(r.workflow, r.inputs)
  }

  function QueryOf(r: Request, now: int): Query
    requires Accepted(r)
  {
    Query(r.scope, r.workflow, Ordered(r.workflow), Normalized(r.workflow, r.inputs), now)
  }

  lemma QueryNames(r: Request, now: int)
    requires Accepted(r)
    ensures QueryOf(r, now).scope == r.scope && QueryOf(r, now).w == r.workflow
  {
  }

  datatype Preview = Preview(outputs: map<string, Value>, decisions: seq<StepDecision>)

  function SignatureFor(q: Query, step: Step, input: Value): Signature {
    InputSignature(q.scope, q.w, step, input)
  }

  predicate Usable(q: Query, step: Step, signature: Signature, r: WorkResult) {
    Matches(r, q.scope, q.w, step, signature, q.now)
  }

  function FirstMatch(q: Query, step: Step, signature: Signature, reusable: seq<WorkResult>): Option<WorkResult> {
    if reusable == [] then None
    else if Usable(q, step, signature, reusable[0]) then Some(reusable[0])
    else FirstMatch(q, step, signature, reusable[1..])
  }

  function PreviewStep(q: Query, p: Preview, step: Step, found: Option<WorkResult>): Preview {
    match StepInput(step, q.inputs, p.outputs)
    case None =>
      p.(decisions := p.decisions
        + [StepDecision(step.id, PendingDependency, "PENDING_DEPENDENCY_OUTPUT", None, None, step.cost)])
    case Some(input) =>
      var signature := SignatureFor(q, step, input);
      match found
      case Some(r) => Preview(p.outputs[step.id := r.output], p.decisions
        + [StepDecision(step.id, Reuse, "REUSE_VALID_RESULT", Some(input), Some(signature), None)])
      case None => p.(decisions := p.decisions
        + [StepDecision(step.id, Rerun, "RERUN_NO_VALID_RESULT", Some(input), Some(signature), step.cost)])
  }

  /** The result the preview of this step would find among `reusable`. */
  function Found(q: Query, p: Preview, step: Step, reusable: seq<WorkResult>): Option<WorkResult> {
    match StepInput(step, q.inputs, p.outputs)
    case None => None
    case Some(input) => FirstMatch(q, step, SignatureFor(q, step, input), reusable)
  }

  /** The preview after the first `k` steps. */
  function PreviewAfter(q: Query, reusable: seq<WorkResult>, k: nat): Preview
    requires k <= |q.steps|
  {
    if k == 0 then Preview(map[], []) else
    var p := PreviewAfter(q, reusable, k - 1);
    PreviewStep(q, p, q.steps[k - 1], Found(q, p, q.steps[k - 1], reusable))
  }

  function DecisionMark(d: StepDecision): Value {
    Object(map[
      "step_id" := Text(d.stepId),
      "decision" := Text(match d.decision
        case Reuse => "reuse" case Rerun => "rerun"
        case PendingDependency => "pending_dependency" case Blocked => "blocked"),
      "input_signature" := match d.signature case Some(s) => Text(s.text) case None => Null])
  }

  function PlanPayload(q: Query, decisions: seq<StepDecision>): Value {
    Object(map[
      "scope" := Object(map["tenant_id" := Text(q.scope.tenant), "project_id" := Text(q.scope.project)]),
      "workflow_id" := Text(q.w.id),
      "workflow_version" := Text(q.w.version),
      "inputs" := Object(q.inputs),
      "decisions" := List(seq(|decisions|, i requires 0 <= i < |decisions| => DecisionMark(decisions[i])))])
  }

  function PlanOf(q: Query, decisions: seq<StepDecision>): RevisionPlan {
    RevisionPlan(Signature("plan", Print(PlanPayload(q, decisions))), q.scope, q.w.id, q.w.version, decisions)
  }

  lemma PlanFields(q: Query, decisions: seq<StepDecision>)
    ensures var f := PlanPayload(q, decisions).members;
      && {"scope", "workflow_id", "workflow_version", "inputs", "decisions"} <= f.Keys
      && f["scope"] == Object(map["tenant_id" := Text(q.scope.tenant), "project_id" := Text(q.scope.project)])
      && f["workflow_id"] == Text(q.w.id) && f["workflow_version"] == Text(q.w.version)
      && f["inputs"] == Object(q.inputs)
      && f["decisions"].List? && |f["decisions"].items| == |decisions|
      && forall i :: 0 <= i < |decisions| ==> f["decisions"].items[i] == DecisionMark(decisions[i])
  {
    hide DecisionMark;
  }

  /** The two decisions name the same step, the same outcome and the same input digest. */
  predicate SameMark(d: StepDecision, e: StepDecision) {
    && d.stepId == e.stepId && d.decision == e.decision
    && (d.signature.Some? <==> e.signature.Some?)
    && (d.signature.Some? && e.signature.Some? ==> d.signature.value.text == e.signature.value.text)
  }

  lemma MarksIdentify(d: StepDecision, e: StepDecision)
    requires DecisionMark(d) == DecisionMark(e)
    ensures SameMark(d, e)
  {
    var f, g := DecisionMark(d).members, DecisionMark(e).members;
    assert f["step_id"] == g["step_id"] && f["decision"] == g["decision"];
    assert f["input_signature"] == g["input_signature"];
    if d.decision != e.decision {
      DecisionNamesDiffer();
    }
  }

  lemma DecisionNamesDiffer()
    ensures "reuse"[2] != "rerun"[2] && "reuse"[0] != "pending_dependency"[0] && "reuse"[0] != "blocked"[0]
    ensures "rerun"[0] != "pending_dependency"[0] && "rerun"[0] != "blocked"[0]
    ensures "pending_dependency"[0] != "blocked"[0]
  {
  }

  /** Equal plan ids name the same project, workflow, version and inputs, and the same decisions on the same input
      digests, step by step. */
  lemma PlanIdsIdentify(q1: Query, d1: seq<StepDecision>, q2: Query, d2: seq<StepDecision>)
    requires PlanOf(q1, d1).planId == PlanOf(q2, d2).planId
    ensures q1.scope == q2.scope && q1.w.id == q2.w.id && q1.w.version == q2.w.version && q1.inputs == q2.inputs
    ensures |d1| == |d2| && forall i :: 0 <= i < |d1| ==> SameMark(d1[i], d2[i])
  {
    hide Print, DecisionMark, SameMark;
    PrintInjective(PlanPayload(q1, d1), PlanPayload(q2, d2));
    PlanFields(q1, d1);
    PlanFields(q2, d2);
    var s1 := map["tenant_id" := Text(q1.scope.tenant), "project_id" := Text(q1.scope.project)];
    var s2 := map["tenant_id" := Text(q2.scope.tenant), "project_id" := Text(q2.scope.project)];
    assert s1["tenant_id"] == s2["tenant_id"] && s1["project_id"] == s2["project_id"];
    var m1, m2 := PlanPayload(q1, d1).members["decisions"].items, PlanPayload(q2, d2).members["decisions"].items;
    forall i | 0 <= i < |d1| ensures SameMark(d1[i], d2[i]) {
      assert m1[i] == m2[i];
      MarksIdentify(d1[i], d2[i]);
    }
  }

  // ----- what a preview says --------------------------------------------------------------

  /** Some declared input of the step was not supplied. */
  ghost predicate MissesInput(q: Query, step: Step) {
    exists name :: In(name) in Refs(step) && name !in q.inputs
  }

  lemma InputKnownExactly(q: Query, step: Step, outputs: map<string, Value>)
    ensures StepInput(step, q.inputs, outputs).Some? <==>
      DependencySet(step) <= outputs.Keys && !MissesInput(q, step)
  {
    hide StepInput;
    StepInputNeedsRefs(step, q.inputs, outputs);
    if !(DependencySet(step) <= outputs.Keys) {
      var d :| d in DependencySet(step) && d !in outputs;
      assert Core.Lookup(Out(d), q.inputs, outputs).None?;
    } else if MissesInput(q, step) {
      var name :| In(name) in Refs(step) && name !in q.inputs;
      assert Core.Lookup(In(name), q.inputs, outputs).None?;
    } else {
      forall r | r in Refs(step) ensures Core.Lookup(r, q.inputs, outputs).Some? {
        if r.Out? { assert r.stepId in DependencySet(step); }
      }
    }
  }

  /** Among the offers, `r` can stand for the step under this signature: made for this project, workflow, step and
      implementation, not expired, its artifact -- if it has one -- available. */
  ghost predicate Offered(q: Query, step: Step, signature: Signature, offers: iset<WorkResult>, r: WorkResult) {
    && r in offers
    && r.scope == q.scope && r.workflowId == q.w.id && r.stepId == step.id
    && r.implementationId == step.implementationId && r.inputSignature == signature
    && (r.freshUntil.Some? ==> q.now < r.freshUntil.value)
    && (r.artifact.Some? ==> r.artifact.value.available)
  }

  ghost function Among(reusable: seq<WorkResult>): iset<WorkResult> {
    iset r | r in reusable
  }

  /** The results a client keeps. */
  ghost function Kept(c: Client): iset<WorkResult> {
    iset r: WorkResult | WorkKey(r.scope, r.workflowId, r.stepId, r.inputSignature) in c.entities
      && c.entities[WorkKey(r.scope, r.workflowId, r.stepId, r.inputSignature)] == Work(r)
  }

  /** What a preview decides about its i-th step, `outputs` being those of the steps it reuses. */
  ghost predicate StepForetold(q: Query, offers: iset<WorkResult>, step: Step, d: StepDecision,
    outputs: map<string, Value>)
  {
    && d.stepId == step.id
    && if !(DependencySet(step) <= outputs.Keys) || MissesInput(q, step) then
         d == StepDecision(step.id, PendingDependency, "PENDING_DEPENDENCY_OUTPUT", None, None, step.cost)
       else
         && d.input.Some? && d.input == StepInput(step, q.inputs, outputs)
         && d.signature == Some(SignatureFor(q, step, d.input.value))
         && if exists r :: Offered(q, step, d.signature.value, offers, r) then
              && d.decision == Reuse && d.reason == "REUSE_VALID_RESULT" && d.cost == None
              && step.id in outputs
              && exists r :: Offered(q, step, d.signature.value, offers, r) && r.output == outputs[step.id]
            else d.decision == Rerun && d.reason == "RERUN_NO_VALID_RESULT" && d.cost == step.cost
  }

  ghost predicate ForetoldSoFar(q: Query, offers: iset<WorkResult>, p: Preview, k: nat)
    requires k <= |q.steps|
  {
    && |p.decisions| == k
    && (forall i :: 0 <= i < k ==> (p.decisions[i].decision == Reuse <==> q.steps[i].id in p.outputs))
    && (forall id :: id in p.outputs ==> id in Ids(q.steps[..k]))
    && (forall i :: 0 <= i < k ==> StepForetold(q, offers, q.steps[i], p.decisions[i], p.outputs))
  }

  /** Step by step: waiting for a dependency that is not itself reused or for an input that was not supplied; else
      reused when an offer fits; else to be run. */
  ghost predicate Foretold(q: Query, offers: iset<WorkResult>, decisions: seq<StepDecision>) {
    exists outputs :: ForetoldSoFar(q, offers, Preview(outputs, decisions), |q.steps|)
  }

  /** The preview knows of the offers what matters to it. */
  ghost predicate Represents(q: Query, offers: iset<WorkResult>, reusable: seq<WorkResult>) {
    forall r: WorkResult :: r.scope == q.scope && r.workflowId == q.w.id ==> (r in reusable <==> r in offers)
  }

  lemma FoundIsOffered(q: Query, offers: iset<WorkResult>, reusable: seq<WorkResult>, step: Step, signature: Signature)
    requires Represents(q, offers, reusable)
    ensures match FirstMatch(q, step, signature, reusable)
      case Some(r) => Offered(q, step, signature, offers, r)
      case None => forall r :: !Offered(q, step, signature, offers, r)
  {
    hide FirstMatch;
    FirstMatchFinds(q, step, signature, reusable);
  }

  /** The preview took one step more. */
  ghost predicate Lengthens(q: Query, offers: iset<WorkResult>, p: Preview, p': Preview, step: Step) {
    && |p'.decisions| == |p.decisions| + 1 && p'.decisions[..|p.decisions|] == p.decisions
    && Extends(p.outputs, p'.outputs) && p'.outputs.Keys <= p.outputs.Keys + {step.id}
    && (p'.decisions[|p.decisions|].decision == Reuse <==> step.id in p'.outputs)
    && StepForetold(q, offers, step, p'.decisions[|p.decisions|], p'.outputs)
  }

  lemma PreviewedStep(q: Query, offers: iset<WorkResult>, reusable: seq<WorkResult>, p: Preview, step: Step)
    requires Represents(q, offers, reusable) && step.id !in p.outputs && step.id !in DependencySet(step)
    ensures Lengthens(q, offers, p, PreviewStep(q, p, step, Found(q, p, step, reusable)), step)
  {
    hide StepInput, SignatureFor, FirstMatch, Offered, MissesInput, DependencySet;
    InputKnownExactly(q, step, p.outputs);
    var resolved := StepInput(step, q.inputs, p.outputs);
    if resolved.Some? {
      FoundIsOffered(q, offers, reusable, step, SignatureFor(q, step, resolved.value));
      StepInputMonotone(step, q.inputs, p.outputs,
        PreviewStep(q, p, step, Found(q, p, step, reusable)).outputs);
    }
  }

  /** A later output changes nothing about an earlier step. */
  lemma StaysForetold(q: Query, offers: iset<WorkResult>, step: Step, d: StepDecision, outputs: map<string, Value>,
    more: map<string, Value>)
    requires StepForetold(q, offers, step, d, outputs) && Extends(outputs, more)
    requires forall id :: id in DependencySet(step) && id in more ==> id in outputs
    ensures StepForetold(q, offers, step, d, more)
  {
    hide StepInput, SignatureFor, Offered, MissesInput, DependencySet;
    if StepInput(step, q.inputs, outputs).Some? {
      StepInputMonotone(step, q.inputs, outputs, more);
    }
    assert DependencySet(step) <= outputs.Keys <==> DependencySet(step) <= more.Keys;
  }

  lemma OneMoreForetold(q: Query, offers: iset<WorkResult>, p: Preview, p': Preview, k: nat)
    requires Sequenced(q.steps) && k < |q.steps| && ForetoldSoFar(q, offers, p, k)
    requires Lengthens(q, offers, p, p', q.steps[k])
    ensures ForetoldSoFar(q, offers, p', k + 1)
  {
    hide StepForetold, DependencySet;
    assert Ids(q.steps[..k + 1]) == Ids(q.steps[..k]) + [q.steps[k].id];
    forall i | 0 <= i < k
      ensures StepForetold(q, offers, q.steps[i], p'.decisions[i], p'.outputs)
      ensures p'.decisions[i].decision == Reuse <==> q.steps[i].id in p'.outputs
    {
      assert p'.decisions[i] == p'.decisions[..k][i] && q.steps[i].id != q.steps[k].id;
      LaterIsNoDependency(q.steps, i, k);
      StaysForetold(q, offers, q.steps[i], p.decisions[i], p.outputs, p'.outputs);
    }
  }

  lemma {:induction false} PreviewIsForetold(q: Query, offers: iset<WorkResult>, reusable: seq<WorkResult>, k: nat)
    requires Sequenced(q.steps) && Represents(q, offers, reusable) && k <= |q.steps|
    ensures ForetoldSoFar(q, offers, PreviewAfter(q, reusable, k), k)
  {
    hide Represents, Lengthens, StepForetold, PreviewStep, Found, DependencySet;
    if k > 0 {
      PreviewIsForetold(q, offers, reusable, k - 1);
      var p, step := PreviewAfter(q, reusable, k - 1), q.steps[k - 1];
      LaterIsNoDependency(q.steps, k - 1, k - 1);
      NotYetReused(q.steps, p, k - 1);
      PreviewedStep(q, offers, reusable, p, step);
      OneMoreForetold(q, offers, p, PreviewAfter(q, reusable, k), k - 1);
    }
  }

  lemma NotYetReused(steps: seq<Step>, p: Preview, k: nat)
    requires Sequenced(steps) && k < |steps| && forall id :: id in p.outputs ==> id in Ids(steps[..k])
    ensures steps[k].id !in p.outputs
  {
  }

  lemma LaterIsNoDependency(steps: seq<Step>, i: nat, k: nat)
    requires Sequenced(steps) && i <= k < |steps|
    ensures steps[k].id !in DependencySet(steps[i])
  {
  }

  lemma RequestIsForetold(request: Request, now: int, offers: iset<WorkResult>, reusable: seq<WorkResult>)
    requires Accepted(request) && Represents(QueryOf(request, now), offers, reusable)
    ensures var q := QueryOf(request, now); Foretold(q, offers, PreviewAfter(q, reusable, |q.steps|).decisions)
  {
    hide ForetoldSoFar, PreviewAfter, Represents, ValidWorkflow, ValidInputs, Sequenced;
    var q := QueryOf(request, now);
    OrderedIsSequenced(request.workflow);
    PreviewIsForetold(q, offers, reusable, |q.steps|);
    var p := PreviewAfter(q, reusable, |q.steps|);
    assert p == Preview(p.outputs, p.decisions);
  }

  // ----- the loop -------------------------------------------------------------------------

  method SearchFirst(q: Query, step: Step, signature: Signature, reusable: seq<WorkResult>)
    returns (found: Option<WorkResult>)
    ensures found == FirstMatch(q, step, signature, reusable)
  {
    for i := 0 to |reusable|
      invariant FirstMatch(q, step, signature, reusable) == FirstMatch(q, step, signature, reusable[i..])
    {
      if Usable(q, step, signature, reusable[i]) {
        return Some(reusable[i]);
      }
      assert reusable[i..][1..] == reusable[i + 1..];
    }
    return None;
  }

  method BuildRevisionPlan(request: Request, reusable: seq<WorkResult>, now: int) returns (plan: Option<RevisionPlan>)
    ensures plan.Some? <==> Accepted(request)
    ensures plan.Some? ==>
      var q := QueryOf(request, now);
      && plan.value == PlanOf(q, PreviewAfter(q, reusable, |q.steps|).decisions)
      && plan.value.scope == request.scope && plan.value.workflowId == request.workflow.id
      && plan.value.workflowVersion == request.workflow.version
      && Foretold(q, Among(reusable), plan.value.decisions)
  {
    hide Foretold, Accepted, PlanPayload, Print, SignatureFor, StepInput, FirstMatch;
    if !Accepted(request) {
      return None;
    }
    var q := QueryOf(request, now);
    var outputs: map<string, Value> := map[];
    var decisions := [];
    for i := 0 to |q.steps|
      invariant Preview(outputs, decisions) == PreviewAfter(q, reusable, i)
    {
      var step := q.steps[i];
      var resolved := StepInput(step, q.inputs, outputs);
      match resolved
      case None =>
        decisions := decisions
          + [StepDecision(step.id, PendingDependency, "PENDING_DEPENDENCY_OUTPUT", None, None, step.cost)];
      case Some(input) =>
        var signature := SignatureFor(q, step, input);
        var found := SearchFirst(q, step, signature, reusable);
        match found {
          case Some(r) =>
            outputs := outputs[step.id := r.output];
            decisions := decisions
              + [StepDecision(step.id, Reuse, "REUSE_VALID_RESULT", Some(input), Some(signature), None)];
          case None =>
            decisions := decisions
              + [StepDecision(step.id, Rerun, "RERUN_NO_VALID_RESULT", Some(input), Some(signature), step.cost)];
        }
    }
    RequestIsForetold(request, now, Among(reusable), reusable);
    return Some(PlanOf(q, decisions));
  }

  // ----- a listing finds what a lookup finds ----------------------------------------------

  /** The stored result a run would reuse for this step and signature. */
  function Reusable(c: Client, scope: Scope, q: Query, step: Step, signature: Signature): Option<WorkResult> {
    match GetWork(c, scope, q.w.id, step.id, signature)
    case Some(r) => if Usable(q, step, signature, r) then Some(r) else None
    case None => None
  }

  /** What is found is usable and nothing before it is; when nothing is found, nothing is usable. */
  lemma {:induction false} FirstMatchFinds(q: Query, step: Step, signature: Signature, reusable: seq<WorkResult>)
    ensures match FirstMatch(q, step, signature, reusable)
      case Some(r) => r in reusable && exists k :: FirstAt(q, step, signature, reusable, r, k)
      case None => forall r :: r in reusable ==> !Usable(q, step, signature, r)
  {
    hide Usable;
    if reusable != [] {
      FirstMatchFinds(q, step, signature, reusable[1..]);
      var found := FirstMatch(q, step, signature, reusable);
      if Usable(q, step, signature, reusable[0]) {
        assert FirstAt(q, step, signature, reusable, reusable[0], 0);
      } else if found.Some? {
        var k: nat :| FirstAt(q, step, signature, reusable[1..], found.value, k);
        assert forall j :: 1 <= j <= k ==> reusable[j] == reusable[1..][j - 1];
        assert FirstAt(q, step, signature, reusable, found.value, k + 1);
      }
    }
  }

  ghost predicate FirstAt(q: Query, step: Step, signature: Signature, reusable: seq<WorkResult>, r: WorkResult, k: nat)
  {
    && k < |reusable| && reusable[k] == r && Usable(q, step, signature, r)
    && forall j :: 0 <= j < k ==> !Usable(q, step, signature, reusable[j])
  }

  /** Scanning any listing of the store gives the record that a keyed lookup gives. */
  lemma ListingAgreesWithLookup(c: Client, q: Query, step: Step, signature: Signature, reusable: seq<WorkResult>)
    requires Consistent(c) && Lists(c, q.scope, q.w.id, reusable)
    ensures FirstMatch(q, step, signature, reusable) == Reusable(c, q.scope, q, step, signature)
  {
    FirstMatchFinds(q, step, signature, reusable);
    var k := WorkKey(q.scope, q.w.id, step.id, signature);
    match GetWork(c, q.scope, q.w.id, step.id, signature) {
      case Some(r) => assert Fits(k, c.entities[k]) && r in reusable;
      case None =>
    }
  }

  /** The preview computed by keyed lookups. */
  function LookupPreview(c: Client, q: Query, k: nat): Preview
    requires k <= |q.steps|
  {
    if k == 0 then Preview(map[], []) else
    var p := LookupPreview(c, q, k - 1);
    var step := q.steps[k - 1];
    PreviewStep(q, p, step,
      match StepInput(step, q.inputs, p.outputs)
      case None => None
      case Some(input) => Reusable(c, q.scope, q, step, SignatureFor(q, step, input)))
  }

  /** The preview does not depend on the order in which the store lists its records. */
  lemma {:induction false} PreviewIgnoresListingOrder(c: Client, q: Query, listing: seq<WorkResult>, k: nat)
    requires Consistent(c) && Lists(c, q.scope, q.w.id, listing) && k <= |q.steps|
    ensures PreviewAfter(q, listing, k) == LookupPreview(c, q, k)
  {
    if k > 0 {
      PreviewIgnoresListingOrder(c, q, listing, k - 1);
      var step := q.steps[k - 1];
      var resolved := StepInput(step, q.inputs, LookupPreview(c, q, k - 1).outputs);
      if resolved.Some? {
        ListingAgreesWithLookup(c, q, step, SignatureFor(q, step, resolved.value), listing);
      }
    }
  }

  /** Results of another project never match: the preview is that of an empty store. */
  lemma {:induction false} ForeignResultsAreIgnored(q: Query, listing: seq<WorkResult>, k: nat)
    requires k <= |q.steps| && forall r :: r in listing ==> r.scope != q.scope
    ensures PreviewAfter(q, listing, k) == PreviewAfter(q, [], k)
    ensures forall i :: 0 <= i < |PreviewAfter(q, listing, k).decisions| ==>
      PreviewAfter(q, listing, k).decisions[i].decision != Reuse
  {
    hide StepInput, SignatureFor;
    if k > 0 {
      ForeignResultsAreIgnored(q, listing, k - 1);
      var step := q.steps[k - 1];
      var resolved := StepInput(step, q.inputs, PreviewAfter(q, [], k - 1).outputs);
      if resolved.Some? {
        FirstMatchFinds(q, step, SignatureFor(q, step, resolved.value), listing);
      }
    }
  }

  /** To a preview, a listing of its project's results is what the client keeps, and one of another project's is
      nothing. */
  lemma ListingRepresents(c: Client, q: Query, listing: seq<WorkResult>)
    requires Consistent(c) && Lists(c, q.scope, q.w.id, listing)
    ensures Represents(q, Kept(c), listing)
  {
    hide Consistent;
  }

  lemma ForeignRepresent(q: Query, listing: seq<WorkResult>)
    requires forall r :: r in listing ==> r.scope != q.scope
    ensures Represents(q, iset{}, listing)
  {
  }
}
