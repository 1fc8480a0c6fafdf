/** Delta's records.  Identifiers are strings, times are integers, money is an integer number of the
    smallest unit, and a digest is the text it digests (SHA-256 is taken to be injective). */
module Types {
  import opened Options
  import opened Json

  datatype Scope = Scope(tenant: string, project: string)

  // ----- workflows ------------------------------------------------------------------------

  datatype Kind = AnyJson | StringInput | DateInput | BooleanInput | IntegerInput | NumberInput

  datatype InputSpec = InputSpec(kind: Kind, required: bool)

  /** A binding tree: literals, references to workflow inputs and step outputs, lists and objects. */
  datatype Binding =
    | Literal(value: Value)
    | InputRef(name: string)
    | OutputRef(stepId: string)
    | Items(items: seq<Binding>)
    | Fields(fields: seq<Field>)

  datatype Field = Field(name: string, binding: Binding)

  datatype Cost = Cost(amount: Option<nat>, currency: string)

  datatype Exposure = InternalOnly | Shareable

  datatype Declaration = Declaration(category: string, exposure: Exposure)

  /** `executable` is whether an executor is configured; what it computes is a parameter of a run. */
  datatype Step = Step(
    id: string,
    implementationId: string,
    bind: seq<Field>,
    ttl: Option<nat>,
    cost: Option<Cost>,
    executable: bool,
    declaration: Option<Declaration>)

  datatype Workflow = Workflow(id: string, version: string, inputs: map<string, InputSpec>, steps: seq<Step>)

  // ----- work -----------------------------------------------------------------------------

  datatype Signature = Signature(prefix: string, text: string)

  datatype Principal = Principal(agentId: string, sessionId: string, providerId: string)

  datatype Settlement = Settled | NeedsReconciliation | Unsettled | UnknownSettlement

  datatype ExternalJob = ExternalJob(providerId: string, jobId: string, chainId: int, settlement: Settlement)

  datatype Provenance = Provenance(
    agentId: string,
    sessionId: string,
    providerId: string,
    category: string,
    exposure: Exposure,
    job: Option<ExternalJob>)

  datatype Artifact = Artifact(artifactId: string, contentHash: string, available: bool)

  datatype WorkResult = WorkResult(
    scope: Scope,
    workflowId: string,
    stepId: string,
    implementationId: string,
    inputSignature: Signature,
    outputSignature: Signature,
    output: Value,
    completedAt: int,
    freshUntil: Option<int>,
    attemptId: Option<string>,
    artifact: Option<Artifact>,
    provenance: Option<Provenance>)

  datatype Status =
    | Planned | Submitting | Active | AwaitingProvider | Ambiguous | ReconciliationRequired
    | BlockedStatus | Succeeded | Failed | Rejected | Expired

  datatype Attempt = Attempt(
    attemptId: string,
    scope: Scope,
    workflowId: string,
    stepId: string,
    status: Status,
    inputSignature: Signature,
    jobId: Option<string>,
    chainId: Option<int>,
    errorCode: Option<string>,
    providerId: Option<string>,
    offeringId: Option<string>,
    offeringName: Option<string>,
    requirements: Option<Signature>)

  // ----- decisions ------------------------------------------------------------------------

  datatype Decision = Reuse | Rerun | PendingDependency | Blocked

  datatype StepDecision = StepDecision(
    stepId: string,
    decision: Decision,
    reason: string,
    input: Option<Value>,
    signature: Option<Signature>,
    cost: Option<Cost>)

  datatype RevisionPlan = RevisionPlan(
    planId: Signature,
    scope: Scope,
    workflowId: string,
    workflowVersion: string,
    decisions: seq<StepDecision>)

  datatype Request = Request(scope: Scope, workflow: Workflow, inputs: map<string, Raw>)
}
