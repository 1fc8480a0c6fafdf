/** The records of `delta/handoff.py`: policies, verdicts, decisions, contexts and receipts.
    A handoff or receipt id is a digest; it is represented by what it digests. */
module HandoffTypes {
  import opened Options
  import opened Json
  import opened Types

  // ----- policy ---------------------------------------------------------------------------

  datatype ProviderRule = AnyProvider | SameProvider | ProviderAllowlist

  datatype ExposureRule = InternalAllowed | ShareableOnly

  datatype Policy = Policy(
    policyId: string,
    projectScope: Scope,
    recipientScope: Scope,
    category: string,
    providerRule: ProviderRule,
    exposureRule: ExposureRule,
    agentAllowlist: Option<set<string>>,
    providerAllowlist: Option<set<string>>)

  /** At most one policy per work category. */
  type PolicySet = map<string, Policy>

  // ----- verdicts -------------------------------------------------------------------------

  datatype Validity = Valid | Invalid | NoWork | ValidityUnevaluated

  datatype Trust = Trusted | Untrusted | NothingToTrust | TrustUnevaluated

  datatype Authorization = Authorized | Unauthorized | NothingToAuthorize | AuthorizationUnevaluated

  datatype Dependency = Satisfied | Pending

  datatype JobSafety = NotApplicable | Safe | MustReconcile | Unsafe | JobUnevaluated

  datatype Verdict<S> = Verdict(status: S, code: string)

  datatype Verdicts = Verdicts(
    validity: Verdict<Validity>,
    trust: Verdict<Trust>,
    authorization: Verdict<Authorization>,
    dependency: Verdict<Dependency>,
    job: Verdict<JobSafety>)

  // ----- decisions and contexts -----------------------------------------------------------

  /** References only: the source of a candidate and the signature of its output. */
  datatype Evidence = Evidence(outputSignature: Option<Signature>, source: Option<Principal>)

  datatype HandoffDecision = HandoffDecision(
    stepId: string,
    decision: Decision,
    reason: string,
    verdicts: Verdicts,
    found: bool,
    evidence: Evidence,
    signature: Option<Signature>,
    cost: Option<Cost>)

  datatype Candidate = Candidate(stepId: string, result: Option<WorkResult>, decision: HandoffDecision)

  datatype ApprovedItem = ApprovedItem(
    stepId: string,
    category: string,
    output: Value,
    outputSignature: Signature,
    agentId: string,
    sessionId: string,
    decision: HandoffDecision,
    artifact: Option<Artifact>)

  datatype Notice = Notice(stepId: string, decision: Decision, reason: string)

  datatype HandoffId = HandoffId(
    scope: Scope,
    workflowId: string,
    workflowVersion: string,
    recipient: Principal,
    policies: PolicySet,
    decisions: seq<HandoffDecision>)

  datatype ApprovedContext = ApprovedContext(
    handoffId: HandoffId,
    scope: Scope,
    recipient: Principal,
    items: seq<ApprovedItem>,
    blocked: seq<Notice>)

  datatype HandoffRecord = HandoffRecord(
    handoffId: HandoffId,
    scope: Scope,
    workflowId: string,
    workflowVersion: string,
    recipient: Principal,
    decisions: seq<HandoffDecision>,
    createdAt: int)

  datatype Outcome = NotRecorded | Reused | Executed | OutcomeBlocked | OutcomePending | OutcomeFailed

  datatype ReceiptEntry = ReceiptEntry(
    stepId: string,
    decision: Decision,
    reason: string,
    verdicts: Verdicts,
    evidence: Evidence,
    cost: Option<Cost>,
    outcome: Outcome,
    attemptId: Option<string>)

  datatype ReceiptId = ReceiptId(handoffId: HandoffId, entries: seq<ReceiptEntry>)

  datatype Receipt = Receipt(
    receiptId: ReceiptId,
    handoffId: HandoffId,
    scope: Scope,
    workflowId: string,
    recipient: Principal,
    entries: seq<ReceiptEntry>,
    counts: map<Decision, nat>,
    createdAt: int)

  datatype AgentSession = AgentSession(
    scope: Scope,
    principal: Principal,
    role: string,
    handoffId: HandoffId,
    createdAt: int)

  datatype AgentRun = AgentRun(
    scope: Scope,
    runId: string,
    handoffId: HandoffId,
    principal: Principal,
    response: Option<Value>,
    createdAt: int)
}
