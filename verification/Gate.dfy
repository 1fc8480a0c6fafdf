/** `HandoffGate`: what previous work may cross a handoff.  The gate folds over the steps of the requested
    workflow, judges one candidate record per step, and carries the outputs it approves forward.

    `Sweep` is the fold; `Evaluated` is the fold with the guards that the source's constructors run, where
    `None` stands for the exception a guard raises.  `HandoffGate.Evaluate` is the loop. */
module Gate {
  import opened Options
  import opened Ordering
  import opened Json
  import opened Topology
  import opened Types
  import opened HandoffTypes
  import opened Core
  import opened Store
  import opened Planning

  /** `request.requested_at` and the optional `now` are one time here, `q.now`. */
  datatype Desk = Desk(
    q: Query,
    recipient: Principal,
    policies: PolicySet,
    index: Index,
    damaged: set<string>,
    order: DigestOrder)

  // ----- candidate discovery --------------------------------------------------------------

  type Slip = (string, Signature)

  type Index = map<Slip, WorkResult>

  /** How digests compare: nothing is known of it but that it is a total order. */
  type DigestOrder = le: (Signature, Signature) -> bool | TotalOrder(le)
    witness (TextOrderIsTotal(); (a, b) => SignatureLe(a, b))

  ghost predicate TotalOrder(le: (Signature, Signature) -> bool) {
    && (forall a, b :: le(a, b) || le(b, a))
    && (forall a, b :: le(a, b) && le(b, a) ==> a == b)
    && (forall a, b, c :: le(a, b) && le(b, c) ==> le(a, c))
  }

  /** One such order: by the digested texts. */
  predicate SignatureLe(a: Signature, b: Signature) {
    if a.prefix != b.prefix then StringLe(a.prefix, b.prefix) else StringLe(a.text, b.text)
  }

  /** `_completed_after`: later completion, then larger output signature. */
  predicate CompletedAfter(le: DigestOrder, a: WorkResult, b: WorkResult) {
    if a.completedAt != b.completedAt then a.completedAt > b.completedAt
    else !le(a.outputSignature, b.outputSignature)
  }

  function SlipOf(r: WorkResult): Slip {
    (r.stepId, r.inputSignature)
  }

  function Indexed(le: DigestOrder, results: seq<WorkResult>): Index {
    if results == [] then map[] else
    var before, r := Indexed(le, results[..|results| - 1]), results[|results| - 1];
    if SlipOf(r) !in before || CompletedAfter(le, r, before[SlipOf(r)]) then before[SlipOf(r) := r] else before
  }

  /** Among two records of one step: completed later; at a tie, met first in key order. */
  predicate Ahead(le: DigestOrder, a: Slip, b: Slip, index: Index)
    requires a in index && b in index
  {
    || CompletedAfter(le, index[a], index[b])
    || (!CompletedAfter(le, index[b], index[a]) && le(a.1, b.1))
  }

  ghost predicate Leads(le: DigestOrder, index: Index, stepId: string, k: Slip) {
    && k in index && k.0 == stepId
    && forall other :: other in index && other.0 == stepId ==> Ahead(le, k, other, index)
  }

  /** `_latest_for_step`. */
  ghost function Latest(le: DigestOrder, index: Index, stepId: string): Option<WorkResult> {
    if k :| Leads(le, index, stepId, k) then Some(index[k]) else None
  }

  function Exact(index: Index, stepId: string, signature: Signature): Option<WorkResult> {
    if (stepId, signature) in index then Some(index[(stepId, signature)]) else None
  }

  // ----- verdicts -------------------------------------------------------------------------

  function ValidityOf(d: Desk, step: Step, signature: Signature, r: WorkResult, matched: bool): Verdict<Validity> {
    if r.scope != d.q.scope then Verdict(Invalid, "PROJECT_SCOPE_MISMATCH")
    else if r.workflowId != d.q.w.id then Verdict(Invalid, "WORKFLOW_MISMATCH")
    else if r.stepId != step.id then Verdict(Invalid, "STEP_MISMATCH")
    else if r.implementationId != step.implementationId then Verdict(Invalid, "IMPLEMENTATION_MISMATCH")
    else if !matched || r.inputSignature != signature then Verdict(Invalid, "INPUT_SIGNATURE_MISMATCH")
    else if !IsFresh(r, d.q.now) then Verdict(Invalid, "RESULT_EXPIRED")
    else if !ArtifactUsable(r) then Verdict(Invalid, "ARTIFACT_UNAVAILABLE")
    else Verdict(Valid, "VALID_MATCHING_RESULT")
  }

  function TrustOf(r: WorkResult): Verdict<Trust> {
    if r.provenance.None? then Verdict(Untrusted, "PROVENANCE_MISSING")
    else if OutputSignature(r.output) != r.outputSignature then Verdict(Untrusted, "OUTPUT_SIGNATURE_MISMATCH")
    else Verdict(Trusted, "PROVENANCE_COMPLETE")
  }

  predicate AgentAllowed(p: Policy, recipient: Principal) {
    match p.agentAllowlist
    case None => true
    case Some(agents) => recipient.agentId in agents
  }

  predicate ProviderAllowed(p: Policy, recipient: Principal) {
    match p.providerAllowlist
    case None => false
    case Some(providers) => recipient.providerId in providers
  }

  function AuthorizationOf(d: Desk, r: WorkResult, trust: Verdict<Trust>): Verdict<Authorization> {
    if r.provenance.None? || trust.status != Trusted then
      Verdict(AuthorizationUnevaluated, "AUTHORIZATION_REQUIRES_TRUSTED_PROVENANCE")
    else
      var source := r.provenance.value;
      if source.category !in d.policies then Verdict(Unauthorized, "NO_POLICY_FOR_WORK_CATEGORY")
      else
        var p := d.policies[source.category];
        if p.projectScope != r.scope then Verdict(Unauthorized, "POLICY_PROJECT_MISMATCH")
        else if p.recipientScope != d.q.scope then Verdict(Unauthorized, "RECIPIENT_PROJECT_MISMATCH")
        else if !AgentAllowed(p, d.recipient) then Verdict(Unauthorized, "RECIPIENT_AGENT_NOT_ALLOWED")
        else if p.providerRule == SameProvider && d.recipient.providerId != source.providerId then
          Verdict(Unauthorized, "PROVIDER_RULE_SAME_PROVIDER_VIOLATED")
        else if p.providerRule == ProviderAllowlist && !ProviderAllowed(p, d.recipient) then
          Verdict(Unauthorized, "PROVIDER_NOT_ALLOWLISTED")
        else if p.exposureRule == ShareableOnly && source.exposure != Shareable then
          Verdict(Unauthorized, "EXTERNAL_EXPOSURE_BLOCKED")
        else Verdict(Authorized, "POLICY_AUTHORIZED")
  }

  function JobOf(r: WorkResult): Verdict<JobSafety> {
    if r.provenance.None? || r.provenance.value.job.None? then Verdict(NotApplicable, "NO_EXTERNAL_JOB")
    else match r.provenance.value.job.value.settlement
      case Settled => Verdict(Safe, "EXTERNAL_JOB_SETTLED")
      case NeedsReconciliation => Verdict(MustReconcile, "EXTERNAL_JOB_RECONCILIATION_REQUIRED")
      case Unsettled => Verdict(Unsafe, "EXTERNAL_JOB_UNSETTLED")
      case UnknownSettlement => Verdict(MustReconcile, "EXTERNAL_JOB_STATE_UNKNOWN")
  }

  /** `approves_inheritance`: all five verdicts permit the content to cross. */
  predicate Approves(v: Verdicts) {
    && v.dependency.status == Satisfied
    && (v.job.status == NotApplicable || v.job.status == Safe)
    && v.trust.status == Trusted
    && v.authorization.status == Authorized
    && v.validity.status == Valid
  }

  /** `_decide`: dependency, money safety, validity, trust, authorization, in this order. */
  function Decide(v: Verdicts): (Decision, string) {
    if v.dependency.status == Pending then (PendingDependency, "PENDING_DEPENDENCY_OUTPUT")
    else if v.job.status == MustReconcile || v.job.status == Unsafe then (Blocked, "BLOCKED_" + v.job.code)
    else if v.validity.status == NoWork then (Rerun, "RERUN_NO_CANDIDATE_WORK")
    else if v.validity.status != Valid then (Rerun, "RERUN_" + v.validity.code)
    else if v.trust.status != Trusted then (Blocked, "BLOCKED_" + v.trust.code)
    else if v.authorization.status != Authorized then (Blocked, "BLOCKED_" + v.authorization.code)
    else (Reuse, "REUSE_APPROVED_BY_POLICY")
  }

  // ----- candidates -----------------------------------------------------------------------

  const UPSTREAM: Verdict<Dependency> := Verdict(Satisfied, "DEPENDENCIES_SATISFIED")

  function EvidenceOf(r: WorkResult): Evidence {
    Evidence(Some(r.outputSignature), match r.provenance
      case Some(p) => Some(Principal(p.agentId, p.sessionId, p.providerId))
      case None => None)
  }

  function Unfound(step: Step, decision: Decision, reason: string, verdicts: Verdicts, found: bool,
    signature: Option<Signature>): Candidate
  {
    Candidate(step.id, None,
      HandoffDecision(step.id, decision, reason, verdicts, found, Evidence(None, None), signature, step.cost))
  }

  function PendingCandidate(step: Step): Candidate {
    Unfound(step, PendingDependency, "PENDING_DEPENDENCY_OUTPUT",
      Verdicts(
        Verdict(ValidityUnevaluated, "VALIDITY_REQUIRES_EFFECTIVE_INPUT"),
        Verdict(TrustUnevaluated, "TRUST_REQUIRES_EFFECTIVE_INPUT"),
        Verdict(AuthorizationUnevaluated, "AUTHORIZATION_REQUIRES_EFFECTIVE_INPUT"),
        Verdict(Pending, "DEPENDENCY_OUTPUT_UNAVAILABLE"),
        Verdict(JobUnevaluated, "EXTERNAL_JOB_REQUIRES_CANDIDATE")),
      false, None)
  }

  function UndecodableCandidate(step: Step, signature: Signature): Candidate {
    Unfound(step, Blocked, "BLOCKED_RECORD_UNDECODABLE",
      Verdicts(
        Verdict(Invalid, "RECORD_UNDECODABLE"),
        Verdict(Untrusted, "RECORD_UNDECODABLE"),
        Verdict(AuthorizationUnevaluated, "AUTHORIZATION_REQUIRES_TRUSTED_PROVENANCE"),
        UPSTREAM,
        Verdict(JobUnevaluated, "EXTERNAL_JOB_REQUIRES_CANDIDATE")),
      true, Some(signature))
  }

  function EmptyCandidate(step: Step, signature: Signature): Candidate {
    Unfound(step, Rerun, "RERUN_NO_CANDIDATE_WORK",
      Verdicts(
        Verdict(NoWork, "NO_CANDIDATE_WORK"),
        Verdict(NothingToTrust, "NO_CANDIDATE_WORK"),
        Verdict(NothingToAuthorize, "NO_CANDIDATE_WORK"),
        UPSTREAM,
        Verdict(NotApplicable, "NO_EXTERNAL_JOB")),
      false, Some(signature))
  }

  function VerdictsFor(d: Desk, step: Step, signature: Signature, r: WorkResult, matched: bool): Verdicts {
    var trust := TrustOf(r);
    Verdicts(ValidityOf(d, step, signature, r, matched), trust, AuthorizationOf(d, r, trust), UPSTREAM, JobOf(r))
  }

  function FoundCandidate(d: Desk, step: Step, signature: Signature, r: WorkResult, matched: bool): Candidate {
    var verdicts := VerdictsFor(d, step, signature, r, matched);
    var (decision, reason) := Decide(verdicts);
    Candidate(step.id, Some(r), HandoffDecision(step.id, decision, reason, verdicts, true, EvidenceOf(r),
      Some(signature), if decision == Reuse then None else step.cost))
  }

  /** The candidate of one step, given the outputs approved so far. */
  ghost function Judge(d: Desk, outputs: map<string, Value>, step: Step): Candidate {
    match StepInput(step, d.q.inputs, outputs)
    case None => PendingCandidate(step)
    case Some(input) => JudgeInput(d, step, SignatureFor(d.q, step, input))
  }

  ghost function JudgeInput(d: Desk, step: Step, signature: Signature): Candidate {
    match Exact(d.index, step.id, signature)
    case Some(r) => FoundCandidate(d, step, signature, r, true)
    case None =>
      match Latest(d.order, d.index, step.id)
      case Some(r) => FoundCandidate(d, step, signature, r, false)
      case None =>
        if step.id in d.damaged then UndecodableCandidate(step, signature) else EmptyCandidate(step, signature)
  }

  // ----- the sweep ------------------------------------------------------------------------

  datatype Swept = Swept(outputs: map<string, Value>, candidates: seq<Candidate>)

  predicate Approved(c: Candidate) {
    c.decision.decision == Reuse
  }

  function Collect(s: Swept, c: Candidate): Swept {
    Swept(
      if Approved(c) && c.result.Some? then s.outputs[c.stepId := c.result.value.output] else s.outputs,
      s.candidates + [c])
  }

  ghost function Sweep(d: Desk, k: nat): Swept
    requires k <= |d.q.steps|
  {
    if k == 0 then Swept(map[], []) else
    var s := Sweep(d, k - 1);
    Collect(s, Judge(d, s.outputs, d.q.steps[k - 1]))
  }

  ghost function SweepAll(d: Desk): Swept {
    Sweep(d, |d.q.steps|)
  }

  // ----- guards ---------------------------------------------------------------------------

  /** What `str.strip` removes. */
  predicate IsBlank(c: char) {
    var n := c as int;
    || 9 <= n <= 13 || 28 <= n <= 32 || n == 133 || n == 160 || n == 5760 || 8192 <= n <= 8202
    || n == 8232 || n == 8233 || n == 8239 || n == 8287 || n == 12288
  }

  predicate IsIdentifier(s: string) {
    s != "" && !IsBlank(s[0]) && !IsBlank(s[|s| - 1])
  }

  predicate VerdictsGuard(v: Verdicts) {
    && IsIdentifier(v.validity.code) && IsIdentifier(v.trust.code) && IsIdentifier(v.authorization.code)
    && IsIdentifier(v.dependency.code) && IsIdentifier(v.job.code)
  }

  predicate DecisionGuard(d: HandoffDecision) {
    && IsIdentifier(d.stepId) && IsIdentifier(d.reason)
    && (d.decision == Reuse ==> Approves(d.verdicts))
    && (d.decision != Reuse ==> !Approves(d.verdicts))
  }

  predicate CandidateGuard(c: Candidate) {
    && VerdictsGuard(c.decision.verdicts) && DecisionGuard(c.decision)
    && c.decision.stepId == c.stepId
    && (c.decision.decision == Reuse ==> c.result.Some?)
  }

  predicate ItemGuard(item: ApprovedItem) {
    && IsIdentifier(item.stepId) && IsIdentifier(item.category)
    && IsIdentifier(item.agentId) && IsIdentifier(item.sessionId)
    && item.decision.stepId == item.stepId
    && item.decision.decision == Reuse && Approves(item.decision.verdicts)
    && OutputSignature(item.output) == item.outputSignature
  }

  predicate NoticeGuard(n: Notice) {
    IsIdentifier(n.stepId) && IsIdentifier(n.reason) && n.decision != Reuse
  }

  predicate ContextGuard(c: ApprovedContext) {
    && (forall i :: 0 <= i < |c.items| ==> c.items[i].decision.decision == Reuse)
    && (forall i, j :: 0 <= i < j < |c.items| ==> c.items[i].stepId != c.items[j].stepId)
    && (forall i, j :: 0 <= i < |c.items| && 0 <= j < |c.blocked| ==> c.items[i].stepId != c.blocked[j].stepId)
  }

  predicate RecordGuard(r: HandoffRecord) {
    IsIdentifier(r.workflowId) && IsIdentifier(r.workflowVersion)
  }

  predicate EntryGuard(e: ReceiptEntry) {
    IsIdentifier(e.stepId) && IsIdentifier(e.reason)
  }

  predicate ReceiptGuard(r: Receipt) {
    && IsIdentifier(r.workflowId)
    && (forall i :: 0 <= i < |r.entries| ==> EntryGuard(r.entries[i]))
    && r.counts == Counts(r.entries)
  }

  /** The sweep with its guards: `None` once a constructor has refused. */
  ghost function Guarded(d: Desk, k: nat): Option<Swept>
    requires k <= |d.q.steps|
  {
    if k == 0 then Some(Swept(map[], [])) else
    match Guarded(d, k - 1)
    case None => None
    case Some(s) =>
      var c := Judge(d, s.outputs, d.q.steps[k - 1]);
      if CandidateGuard(c) then Some(Collect(s, c)) else None
  }

  // ----- what the gate hands over ---------------------------------------------------------

  function DecisionsOf(candidates: seq<Candidate>): (ds: seq<HandoffDecision>)
    ensures |ds| == |candidates| && forall i :: 0 <= i < |ds| ==> ds[i] == candidates[i].decision
  {
    seq(|candidates|, i requires 0 <= i < |candidates| => candidates[i].decision)
  }

  function IdOf(q: Query, recipient: Principal, policies: PolicySet, candidates: seq<Candidate>): HandoffId {
    HandoffId(q.scope, q.w.id, q.w.version, recipient, policies, DecisionsOf(candidates))
  }

  /** The item of an approved candidate; `None` is the exception of a lost result or provenance. */
  function ItemOf(c: Candidate): Option<ApprovedItem> {
    match c.result
    case None => None
    case Some(r) =>
      match r.provenance
      case None => None
      case Some(p) => Some(ApprovedItem(c.decision.stepId, p.category, r.output, r.outputSignature,
        p.agentId, p.sessionId, c.decision, r.artifact))
  }

  function NoticeOf(c: Candidate): Notice {
    Notice(c.decision.stepId, c.decision.decision, c.decision.reason)
  }

  /** Items and notices of the candidates, in order; `None` when an item or notice cannot be built. */
  function Sorted(candidates: seq<Candidate>): Option<(seq<ApprovedItem>, seq<Notice>)> {
    if candidates == [] then Some(([], [])) else
    var c := candidates[|candidates| - 1];
    match Sorted(candidates[..|candidates| - 1])
    case None => None
    case Some((items, notices)) =>
      if Approved(c) then
        match ItemOf(c)
        case Some(item) => if ItemGuard(item) then Some((items + [item], notices)) else None
        case None => None
      else if NoticeGuard(NoticeOf(c)) then Some((items, notices + [NoticeOf(c)]))
      else None
  }

  function EntryOf(d: HandoffDecision): ReceiptEntry {
    ReceiptEntry(d.stepId, d.decision, d.reason, d.verdicts, d.evidence, d.cost, NotRecorded, None)
  }

  function EntriesOf(candidates: seq<Candidate>): (es: seq<ReceiptEntry>)
    ensures |es| == |candidates| && forall i :: 0 <= i < |es| ==> es[i] == EntryOf(candidates[i].decision)
  {
    seq(|candidates|, i requires 0 <= i < |candidates| => EntryOf(candidates[i].decision))
  }

  /** How many entries there are of each kind. */
  function Counts(entries: seq<ReceiptEntry>): (counts: map<Decision, nat>)
    ensures counts.Keys == {Reuse, Rerun, PendingDependency, Blocked}
    ensures counts[Reuse] + counts[Rerun] + counts[PendingDependency] + counts[Blocked] == |entries|
  {
    if entries == [] then map[Reuse := 0, Rerun := 0, PendingDependency := 0, Blocked := 0]
    else
      var before, kind := Counts(entries[..|entries| - 1]), entries[|entries| - 1].decision;
      match kind
      case Reuse => before[Reuse := before[Reuse] + 1]
      case Rerun => before[Rerun := before[Rerun] + 1]
      case PendingDependency => before[PendingDependency := before[PendingDependency] + 1]
      case Blocked => before[Blocked := before[Blocked] + 1]
  }

  function KindsOf(entries: seq<ReceiptEntry>): (kinds: seq<Decision>)
    ensures |kinds| == |entries| && forall i :: 0 <= i < |kinds| ==> kinds[i] == entries[i].decision
  {
    seq(|entries|, i requires 0 <= i < |entries| => entries[i].decision)
  }

  /** Each count is how often its kind occurs. */
  lemma {:induction false} CountsAreExact(entries: seq<ReceiptEntry>, kind: Decision)
    ensures kind in Counts(entries) && Counts(entries)[kind] == multiset(KindsOf(entries))[kind]
  {
    if entries != [] {
      var n := |entries| - 1;
      CountsAreExact(entries[..n], kind);
      assert KindsOf(entries) == KindsOf(entries[..n]) + [entries[n].decision];
    }
  }

  function ReceiptOf(q: Query, recipient: Principal, id: HandoffId, entries: seq<ReceiptEntry>): Receipt {
    Receipt(ReceiptId(id, entries), id, q.scope, q.w.id, recipient, entries, Counts(entries), q.now)
  }

  datatype Evaluation = Evaluation(
    handoffId: HandoffId,
    candidates: seq<Candidate>,
    record: HandoffRecord,
    receipt: Receipt,
    context: ApprovedContext)

  /** Everything after the sweep, guard by guard. */
  function Handover(q: Query, recipient: Principal, policies: PolicySet, candidates: seq<Candidate>,
    sorted: Option<(seq<ApprovedItem>, seq<Notice>)>): Option<Evaluation>
  {
    var id := IdOf(q, recipient, policies, candidates);
    var record := HandoffRecord(id, q.scope, q.w.id, q.w.version, recipient, DecisionsOf(candidates), q.now);
    match sorted
    case None => None
    case Some((items, notices)) =>
      var context := ApprovedContext(id, q.scope, recipient, items, notices);
      var receipt := ReceiptOf(q, recipient, id, EntriesOf(candidates));
      if RecordGuard(record) && ContextGuard(context) && ReceiptGuard(receipt)
      then Some(Evaluation(id, candidates, record, receipt, context)) else None
  }

  ghost function Evaluated(d: Desk): Option<Evaluation> {
    match Guarded(d, |d.q.steps|)
    case None => None
    case Some(s) => Handover(d.q, d.recipient, d.policies, s.candidates, Sorted(s.candidates))
  }

  // ----- the order of records -------------------------------------------------------------

  lemma SignatureLeTotal(a: Signature, b: Signature)
    ensures SignatureLe(a, b) || SignatureLe(b, a)
    ensures SignatureLe(a, b) && SignatureLe(b, a) ==> a == b
  {
    StringLeTotal(a.prefix, b.prefix);
    StringLeTotal(a.text, b.text);
    if SignatureLe(a, b) && SignatureLe(b, a) {
      if a.prefix != b.prefix { StringLeAntisymmetric(a.prefix, b.prefix); }
      StringLeAntisymmetric(a.text, b.text);
    }
  }

  lemma SignatureLeTransitive(a: Signature, b: Signature, c: Signature)
    requires SignatureLe(a, b) && SignatureLe(b, c)
    ensures SignatureLe(a, c)
  {
    if a.prefix == b.prefix == c.prefix {
      StringLeTransitive(a.text, b.text, c.text);
    } else {
      if a.prefix != b.prefix && b.prefix != c.prefix {
        StringLeTransitive(a.prefix, b.prefix, c.prefix);
        if a.prefix == c.prefix { StringLeAntisymmetric(a.prefix, b.prefix); }
      }
    }
  }

  lemma TextOrderIsTotal()
    ensures TotalOrder((a, b) => SignatureLe(a, b))
  {
    hide SignatureLe;
    forall a, b ensures SignatureLe(a, b) || SignatureLe(b, a) { SignatureLeTotal(a, b); }
    forall a, b | SignatureLe(a, b) && SignatureLe(b, a) ensures a == b { SignatureLeTotal(a, b); }
    forall a, b, c | SignatureLe(a, b) && SignatureLe(b, c) ensures SignatureLe(a, c) {
      SignatureLeTransitive(a, b, c);
    }
  }

  lemma OrderTotal(le: DigestOrder, a: Signature, b: Signature)
    ensures le(a, b) || le(b, a)
    ensures le(a, b) && le(b, a) ==> a == b
  {
  }

  lemma OrderTransitive(le: DigestOrder, a: Signature, b: Signature, c: Signature)
    requires le(a, b) && le(b, c)
    ensures le(a, c)
  {
  }

  /** `Ahead` is a total order on the records of one step. */
  lemma AheadTotal(le: DigestOrder, a: Slip, b: Slip, index: Index)
    requires a in index && b in index
    ensures Ahead(le, a, b, index) || Ahead(le, b, a, index)
    ensures a.0 == b.0 && Ahead(le, a, b, index) && Ahead(le, b, a, index) ==> a == b
  {
    hide TotalOrder;
    OrderTotal(le, a.1, b.1);
    OrderTotal(le, index[a].outputSignature, index[b].outputSignature);
  }

  lemma AheadTransitive(le: DigestOrder, a: Slip, b: Slip, c: Slip, index: Index)
    requires a in index && b in index && c in index && Ahead(le, a, b, index) && Ahead(le, b, c, index)
    ensures Ahead(le, a, c, index)
  {
    hide TotalOrder;
    var x, y, z := index[a].outputSignature, index[b].outputSignature, index[c].outputSignature;
    OrderTotal(le, x, y);
    OrderTotal(le, y, z);
    OrderTotal(le, x, z);
    if le(y, x) && le(z, y) { OrderTransitive(le, z, y, x); }
    if le(a.1, b.1) && le(b.1, c.1) { OrderTransitive(le, a.1, b.1, c.1); }
  }

  lemma LatestIsTheLeader(le: DigestOrder, index: Index, stepId: string, k: Slip)
    requires Leads(le, index, stepId, k)
    ensures Latest(le, index, stepId) == Some(index[k])
  {
    hide Ahead;
    forall other | Leads(le, index, stepId, other) ensures other == k {
      AheadTotal(le, k, other, index);
    }
  }

  lemma NoRecordsNoLatest(le: DigestOrder, index: Index, stepId: string)
    requires forall k :: k in index ==> k.0 != stepId
    ensures Latest(le, index, stepId) == None
  {
  }

  // ----- the gate -------------------------------------------------------------------------

  method LoadCandidates(le: DigestOrder, results: seq<WorkResult>) returns (index: Index)
    ensures index == Indexed(le, results)
  {
    index := map[];
    for i := 0 to |results|
      invariant index == Indexed(le, results[..i])
    {
      assert results[..i + 1][..i] == results[..i];
      var r := results[i];
      if SlipOf(r) !in index || CompletedAfter(le, r, index[SlipOf(r)]) {
        index := index[SlipOf(r) := r];
      }
    }
    assert results[..|results|] == results;
  }

  lemma {:induction false} FirstKeyExists(le: DigestOrder, todo: set<Slip>) returns (k: Slip)
    requires todo != {} && forall a, b :: a in todo && b in todo ==> a.0 == b.0
    ensures k in todo && forall other :: other in todo ==> le(k.1, other.1)
  {
    hide TotalOrder;
    k :| k in todo;
    OrderTotal(le, k.1, k.1);
    if todo != {k} {
      var first := FirstKeyExists(le, todo - {k});
      OrderTotal(le, k.1, first.1);
      forall other | other in todo && le(k.1, first.1) ensures le(k.1, other.1) {
        if other != k { OrderTransitive(le, k.1, first.1, other.1); }
      }
      k := if le(k.1, first.1) then k else first;
    }
  }

  /** Scan the step's records in ascending key order, keeping the one completed last. */
  method LatestForStep(le: DigestOrder, index: Index, stepId: string) returns (best: Option<WorkResult>)
    ensures best == Latest(le, index, stepId)
  {
    hide TotalOrder, CompletedAfter, Latest;
    var todo := set k | k in index && k.0 == stepId;
    ghost var all, leader := todo, ("", Signature("", ""));
    best := None;
    while todo != {}
      invariant todo <= all
      invariant best.None? ==> todo == all
      invariant best.Some? ==>
        && leader in all - todo && best == Some(index[leader])
        && (forall k :: k in all - todo ==> Ahead(le, leader, k, index))
        && (forall k :: k in todo ==> le(leader.1, k.1))
      decreases todo
    {
      ghost var first := FirstKeyExists(le, todo);
      var k :| k in todo && forall other :: other in todo ==> le(k.1, other.1);
      if best.None? || CompletedAfter(le, index[k], best.value) {
        TakesTheLead(le, index, all - todo, leader, k, best);
        best, leader := Some(index[k]), k;
      } else {
        assert Ahead(le, leader, k, index);
      }
      todo := todo - {k};
    }
    assert all - todo == all;
    assert forall k :: k in index && k.0 == stepId ==> k in all;
    if best.Some? {
      LatestIsTheLeader(le, index, stepId, leader);
    } else {
      NoRecordsNoLatest(le, index, stepId);
    }
  }

  lemma TakesTheLead(le: DigestOrder, index: Index, seen: set<Slip>, leader: Slip, k: Slip, best: Option<WorkResult>)
    requires k in index && forall s :: s in seen ==> s in index
    requires if best.None? then seen == {} else
      leader in seen && best == Some(index[leader]) && CompletedAfter(le, index[k], index[leader])
      && forall s :: s in seen ==> Ahead(le, leader, s, index)
    ensures forall s :: s in seen ==> Ahead(le, k, s, index)
    ensures Ahead(le, k, k, index)
  {
    hide TotalOrder, CompletedAfter;
    AheadTotal(le, k, k, index);
    forall s | s in seen ensures Ahead(le, k, s, index) {
      AheadTransitive(le, k, leader, s, index);
    }
  }

  method BuildApprovedContext(candidates: seq<Candidate>) returns (sorted: Option<(seq<ApprovedItem>, seq<Notice>)>)
    ensures sorted == Sorted(candidates)
  {
    hide ItemGuard, NoticeGuard, ItemOf, NoticeOf, Approved;
    var items: seq<ApprovedItem>, blocked: seq<Notice> := [], [];
    for i := 0 to |candidates|
      invariant Sorted(candidates[..i]) == Some((items, blocked))
    {
      assert candidates[..i + 1][..i] == candidates[..i];
      var c := candidates[i];
      if !Approved(c) {
        if !NoticeGuard(NoticeOf(c)) {
          SortedStops(candidates, i + 1);
          return None;
        }
        blocked := blocked + [NoticeOf(c)];
      } else {
        var item := ItemOf(c);
        if item.None? || !ItemGuard(item.value) {
          SortedStops(candidates, i + 1);
          return None;
        }
        items := items + [item.value];
      }
    }
    assert candidates[..|candidates|] == candidates;
    return Some((items, blocked));
  }

  lemma {:induction false} SortedStops(candidates: seq<Candidate>, k: nat)
    requires k <= |candidates| && Sorted(candidates[..k]) == None
    ensures Sorted(candidates) == None
    decreases |candidates|
  {
    if k < |candidates| {
      var front := candidates[..|candidates| - 1];
      assert front[..k] == candidates[..k];
      SortedStops(front, k);
    } else {
      assert candidates[..k] == candidates;
    }
  }

  lemma {:induction false} GuardedStops(d: Desk, k: nat, m: nat)
    requires k <= m <= |d.q.steps| && Guarded(d, k) == None
    ensures Guarded(d, m) == None
    decreases m
  {
    hide Judge, CandidateGuard, Collect;
    if k < m {
      GuardedStops(d, k, m - 1);
    }
  }

  /** The records a store lists for one workflow, by step and input signature. */
  function IndexOf(c: Client, scope: Scope, workflowId: string): Index
    requires Consistent(c)
  {
    assert forall k :: k in c.entities ==> Fits(k, c.entities[k]);
    map k | k in c.entities && Listed(c, scope, workflowId, k) ::
      SlipOf(c.entities[k].result) := c.entities[k].result
  }

  /** A lookup in the index is a keyed lookup in the store. */
  lemma IndexFinds(c: Client, scope: Scope, workflowId: string, stepId: string, signature: Signature)
    requires Consistent(c)
    ensures Exact(IndexOf(c, scope, workflowId), stepId, signature) == GetWork(c, scope, workflowId, stepId, signature)
  {
    var index, key := IndexOf(c, scope, workflowId), WorkKey(scope, workflowId, stepId, signature);
    if (stepId, signature) in index {
      var k :| k in c.entities && Listed(c, scope, workflowId, k)
        && SlipOf(c.entities[k].result) == (stepId, signature);
      assert Fits(k, c.entities[k]) && k == key;
    }
    if key in c.entities && c.entities[key].Work? {
      assert Fits(key, c.entities[key]) && Listed(c, scope, workflowId, key);
    }
  }

  /** Indexing any listing gives the same index; the order of the listing does not matter. */
  lemma ListingIsIndexed(le: DigestOrder, c: Client, scope: Scope, workflowId: string, results: seq<WorkResult>)
    requires Consistent(c) && Lists(c, scope, workflowId, results)
    ensures Indexed(le, results) == IndexOf(c, scope, workflowId)
  {
    hide Indexed, IndexOf, Consistent;
    var index, goal := Indexed(le, results), IndexOf(c, scope, workflowId);
    UniqueKeysIndex(le, results);
    forall s: Slip ensures Exact(index, s.0, s.1) == Exact(goal, s.0, s.1) {
      IndexFinds(c, scope, workflowId, s.0, s.1);
      ListedWork(c, scope, workflowId, s.0, s.1);
      var found := GetWork(c, scope, workflowId, s.0, s.1);
      assert s == (s.0, s.1);
      if found.Some? { assert found.value in results; }
      if s in index { assert index[s] in results && SlipOf(index[s]) == s; }
    }
    SameLookups(index, goal);
  }

  lemma ListedWork(c: Client, scope: Scope, workflowId: string, stepId: string, signature: Signature)
    requires Consistent(c)
    ensures match GetWork(c, scope, workflowId, stepId, signature)
      case Some(r) => r.scope == scope && r.workflowId == workflowId && SlipOf(r) == (stepId, signature)
        && r.outputSignature == OutputSignature(r.output)
      case None => true
  {
    var key := WorkKey(scope, workflowId, stepId, signature);
    if key in c.entities { assert Fits(key, c.entities[key]); }
  }

  lemma SameLookups(a: Index, b: Index)
    requires forall s: Slip :: Exact(a, s.0, s.1) == Exact(b, s.0, s.1)
    ensures a == b
  {
    forall s: Slip ensures (s in a <==> s in b) && (s in a ==> a[s] == b[s]) {
      assert Exact(a, s.0, s.1) == Exact(b, s.0, s.1);
    }
  }

  /** On uniquely keyed results the index holds exactly the results. */
  lemma {:induction false} UniqueKeysIndex(le: DigestOrder, results: seq<WorkResult>)
    requires UniquelyKeyed(results)
    ensures forall r :: r in results ==> SlipOf(r) in Indexed(le, results) && Indexed(le, results)[SlipOf(r)] == r
    ensures forall s :: s in Indexed(le, results) ==>
      Indexed(le, results)[s] in results && SlipOf(Indexed(le, results)[s]) == s
  {
    hide CompletedAfter;
    if results != [] {
      var front, r := results[..|results| - 1], results[|results| - 1];
      UniqueKeysIndex(le, front);
      assert results == front + [r];
      forall s | s in front ensures SlipOf(s) != SlipOf(r) {
        var i :| 0 <= i < |front| && front[i] == s;
        assert results[i] == s;
      }
    }
  }

  /** The gate's desk for a request, over the client that its store reads. */
  function DeskOf(request: Request, now: int, recipient: Principal, policies: PolicySet, c: Client, owner: Scope,
    order: DigestOrder): Desk
    requires Accepted(request) && Consistent(c)
  {
    Desk(QueryOf(request, now), recipient, policies, IndexOf(c, owner, request.workflow.id),
      DamagedSteps(c, owner, request.workflow.id), order)
  }

  class HandoffGate {
    const store: SibylStore
    const order: DigestOrder

    constructor (store: SibylStore, order: DigestOrder)
      ensures this.store == store && this.order == order
    {
      this.store := store;
      this.order := order;
    }

    /** One candidate; `None` when a guard of its construction fires. */
    method EvaluateStep(d: Desk, outputs: map<string, Value>, step: Step) returns (c: Option<Candidate>)
      ensures c == if CandidateGuard(Judge(d, outputs, step)) then Some(Judge(d, outputs, step)) else None
    {
      hide CandidateGuard, PendingCandidate, FoundCandidate, UndecodableCandidate, EmptyCandidate, Latest, StepInput,
        SignatureFor;
      var candidate;
      var resolved := StepInput(step, d.q.inputs, outputs);
      if resolved.None? {
        candidate := PendingCandidate(step);
      } else {
        var signature := SignatureFor(d.q, step, resolved.value);
        var exact := Exact(d.index, step.id, signature);
        var fallback: Option<WorkResult> := None;
        if exact.None? {
          fallback := LatestForStep(d.order, d.index, step.id);
        }
        if exact.None? && fallback.None? && step.id in d.damaged {
          candidate := UndecodableCandidate(step, signature);
        } else if exact.Some? {
          candidate := FoundCandidate(d, step, signature, exact.value, true);
        } else if fallback.Some? {
          candidate := FoundCandidate(d, step, signature, fallback.value, false);
        } else {
          candidate := EmptyCandidate(step, signature);
        }
      }
      c := if CandidateGuard(candidate) then Some(candidate) else None;
    }

    /** `None` stands for the exception of an invalid request or of a guard. */
    method Evaluate(request: Request, now: int, recipient: Principal, policies: PolicySet)
      returns (e: Option<Evaluation>)
      requires Consistent(store.State())
      ensures !Accepted(request) ==> e == None
      ensures Accepted(request) ==>
        e == Evaluated(DeskOf(request, now, recipient, policies, store.State(), store.scope, order))
    {
      hide Judge, CandidateGuard, Handover, Collect, Accepted, QueryOf;
      if !Accepted(request) {
        return None;
      }
      var q := QueryOf(request, now);
      var results, damaged := store.ListWorkRecords(request.workflow.id);
      var index := LoadCandidates(order, results);
      ListingIsIndexed(order, store.State(), store.scope, request.workflow.id, results);
      var d := Desk(q, recipient, policies, index, damaged, order);
      var swept := Swept(map[], []);
      for i := 0 to |q.steps|
        invariant Guarded(d, i) == Some(swept)
      {
        var c := EvaluateStep(d, swept.outputs, q.steps[i]);
        if c.None? {
          GuardedStops(d, i + 1, |q.steps|);
          return None;
        }
        swept := Collect(swept, c.value);
      }
      var sorted := BuildApprovedContext(swept.candidates);
      e := Handover(q, recipient, policies, swept.candidates, sorted);
    }
  }
}
