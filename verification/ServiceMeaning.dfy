/** What a served run leaves in the store: the handoff, the sessions behind it, and work in the recipient's name. */
module ServiceMeaning {
  import opened Options
  import opened Json
  import opened Types
  import opened HandoffTypes
  import opened Core
  import opened Store
  import opened Planning
  import opened Engine
  import opened EngineLaws
  import opened Gate
  import opened Service
  import opened RunMeaning

  // ----- the handoff and its sessions -----------------------------------------------------

  /** The work of one of the candidates was made by this principal. */
  ghost predicate IsSource(candidates: seq<Candidate>, p: Principal) {
    exists k :: 0 <= k < |candidates| && candidates[k].decision.evidence.source == Some(p)
  }

  ghost predicate HasSource(candidates: seq<Candidate>, sessionId: string) {
    exists p :: IsSource(candidates, p) && p.sessionId == sessionId
  }

  /** A session whose id is that of a source is now that source's. */
  ghost predicate SeatsSource(c: Client, key: Key, id: HandoffId, scope: Scope, now: int, candidates: seq<Candidate>) {
    exists p :: IsSource(candidates, p) && SeatedAs(c, key, AgentSession(scope, p, "agent_a", id, now))
  }

  ghost predicate SeatedAs(c: Client, key: Key, s: AgentSession) {
    key == SessionKey(s.scope, s.principal.sessionId) && key in c.entities && c.entities[key] == Session(s)
  }

  lemma {:induction false} SourcesAreSeated(c: Client, id: HandoffId, scope: Scope, now: int,
    candidates: seq<Candidate>, key: Key)
    ensures var c' := WithSources(c, id, scope, now, candidates);
      && c'.heads == c.heads
      && if key.SessionKey? && key.scope == scope && HasSource(candidates, key.sessionId)
         then SeatsSource(c', key, id, scope, now, candidates) else SameEntity(c, c', key)
  {
    if candidates != [] {
      var n := |candidates| - 1;
      SourcesAreSeated(c, id, scope, now, candidates[..n], key);
      var before := WithSources(c, id, scope, now, candidates[..n]);
      var source := candidates[n].decision.evidence.source;
      SourcesGrow(candidates, key);
      if source.Some? && SessionKey(scope, source.value.sessionId) == key {
        assert SeatedAs(WithSources(c, id, scope, now, candidates), key,
          AgentSession(scope, source.value, "agent_a", id, now));
      }
    }
  }

  lemma SourcesGrow(candidates: seq<Candidate>, key: Key)
    requires candidates != []
    ensures forall p :: IsSource(candidates, p) <==>
      IsSource(candidates[..|candidates| - 1], p) || candidates[|candidates| - 1].decision.evidence.source == Some(p)
  {
    var n := |candidates| - 1;
    forall p ensures IsSource(candidates, p) <==>
      IsSource(candidates[..n], p) || candidates[n].decision.evidence.source == Some(p)
    {
      if IsSource(candidates[..n], p) {
        var k :| 0 <= k < n && candidates[..n][k].decision.evidence.source == Some(p);
        assert candidates[k].decision.evidence.source == Some(p);
      }
      if IsSource(candidates, p) {
        var k :| 0 <= k < |candidates| && candidates[k].decision.evidence.source == Some(p);
        if k < n { assert candidates[..n][k] == candidates[k]; }
      }
    }
  }

  /** Before the engine runs the store holds the gate's record, a session of the recipient and one of every source --
      where ids coincide, a source's -- and is otherwise as it was. */
  lemma HandoffIsSaved(c: Client, e: Evaluation, recipient: Principal, scope: Scope, now: int, key: Key)
    requires e.record.scope == scope && e.record.handoffId == e.handoffId
    ensures var c' := WithHandoff(c, e, recipient, scope, now);
      && c'.heads == c.heads
      && if key == HandoffKey(scope, e.handoffId) then key in c'.entities && c'.entities[key] == Handoff(e.record)
         else if key.SessionKey? && key.scope == scope && HasSource(e.candidates, key.sessionId) then
           SeatsSource(c', key, e.handoffId, scope, now, e.candidates)
         else if key == SessionKey(scope, recipient.sessionId) then
           SeatedAs(c', key, AgentSession(scope, recipient, "agent_b", e.handoffId, now))
         else SameEntity(c, c', key)
  {
    hide HasSource, SeatsSource, WithSources;
    var recorded := Put(c, Handoff(e.record));
    var seated := Put(recorded, Session(AgentSession(scope, recipient, "agent_b", e.handoffId, now)));
    SourcesAreSeated(seated, e.handoffId, scope, now, e.candidates, key);
  }

  // ----- work in the recipient's name -----------------------------------------------------

  /** The step's declared work is signed by the agent that the service ran for. */
  predicate SignedBy(r: WorkResult, recipient: Principal, step: Step) {
    match step.declaration
    case None => r.provenance == None
    case Some(d) =>
      var p := recipient;
      r.provenance == Some(Provenance(p.agentId, p.sessionId, p.providerId, d.category, d.exposure, None))
  }

  /** What a served run executed is in the store afterwards, under its input's signature, with the reported output, and
      in the recipient's name. */
  lemma ExecutedWorkIsTheRecipients(e: Evaluation, q: Query, recipient: Principal,
    compute: (string, Value) -> Option<Value>, fails: set<string>, newId: string -> string, start: Client,
    after: Client, served: Served, i: nat)
    requires ServedAs(e, ServiceJob(q, recipient, compute, fails, newId), start, after, served)
    requires Sequenced(q.steps) && i < |q.steps| && |served.report.decisions| == |q.steps|
    requires served.report.decisions[i].reason == "EXECUTED_SUCCESSFULLY"
    ensures var d, step := served.report.decisions[i], q.steps[i];
      && d.signature.Some? && step.id in served.report.outputs
      && var work := GetWork(after, q.scope, q.w.id, step.id, d.signature.value);
      && work.Some? && work.value.output == served.report.outputs[step.id] && work.value.completedAt == q.now
      && SignedBy(work.value, recipient, step)
  {
    hide Complete, CostSummary, FinalEntries, Sequenced, Refs, GetWork;
    var job := ServiceJob(q, recipient, compute, fails, newId);
    var done, signature := Complete(job, start), served.report.decisions[i].signature;
    ExecutedWorkIsKept(job, start, i);
    ClosingKeepsWork(done.client, served.evaluation.receipt, served.run, WorkKey(q.scope, q.w.id, q.steps[i].id,
      signature.value));
    SameWork(done.client, after, q.scope, q.w.id, q.steps[i].id, signature.value);
    var r := GetWork(done.client, q.scope, q.w.id, q.steps[i].id, signature.value).value;
    RecordIsSigned(job, q.steps[i], signature.value, r, recipient);
  }

  lemma ClosingKeepsWork(c: Client, receipt: Receipt, run: AgentRun, key: Key)
    requires key.WorkKey?
    ensures SameEntity(c, Closed(c, receipt, run), key)
  {
  }

  lemma SameWork(a: Client, b: Client, scope: Scope, workflowId: string, stepId: string, signature: Signature)
    requires SameEntity(a, b, WorkKey(scope, workflowId, stepId, signature))
    ensures GetWork(b, scope, workflowId, stepId, signature) == GetWork(a, scope, workflowId, stepId, signature)
  {
  }

  lemma RecordIsSigned(job: Job, step: Step, signature: Signature, r: WorkResult, recipient: Principal)
    requires RecordTells(job, step, signature, r) && job.principal == Some(recipient)
    ensures SignedBy(r, recipient, step)
  {
  }
}
