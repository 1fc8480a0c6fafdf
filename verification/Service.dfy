/** `AgentHandoffService.run`: the gate decides what crosses, the engine runs the declared work without consulting
    the gate again, and a receipt reports both.  The agent runner is an oracle: `answer` is its response, `None`
    the error it raises. */
module Service {
  import opened Options
  import opened Json
  import opened Types
  import opened HandoffTypes
  import opened Core
  import opened Store
  import opened Planning
  import opened Engine
  import opened Gate

  // ----- sessions -------------------------------------------------------------------------

  function SourceSession(id: HandoffId, scope: Scope, now: int, source: Principal): Record {
    Session(AgentSession(scope, source, "agent_a", id, now))
  }

  /** The client once the sessions behind the first `k` candidates are saved. */
  function WithSources(c: Client, id: HandoffId, scope: Scope, now: int, candidates: seq<Candidate>): Client {
    if candidates == [] then c else
    var before := WithSources(c, id, scope, now, candidates[..|candidates| - 1]);
    match candidates[|candidates| - 1].decision.evidence.source
    case None => before
    case Some(source) => Put(before, SourceSession(id, scope, now, source))
  }

  /** Before the engine runs: the gate's record, the recipient's session, the sources' sessions. */
  function WithHandoff(c: Client, e: Evaluation, recipient: Principal, scope: Scope, now: int): Client {
    var recorded := Put(c, Handoff(e.record));
    var seated := Put(recorded, Session(AgentSession(scope, recipient, "agent_b", e.handoffId, now)));
    WithSources(seated, e.handoffId, scope, now, e.candidates)
  }

  // ----- the receipt ----------------------------------------------------------------------

  /** `{decision.step_id: decision}[id]`, the last one of the step. */
  function DecisionFor(decisions: seq<StepDecision>, stepId: string): Option<StepDecision> {
    if decisions == [] then None
    else if decisions[|decisions| - 1].stepId == stepId then Some(decisions[|decisions| - 1])
    else DecisionFor(decisions[..|decisions| - 1], stepId)
  }

  function AttemptFor(attempts: seq<Attempt>, stepId: string): Option<Attempt> {
    if attempts == [] then None
    else if attempts[|attempts| - 1].stepId == stepId then Some(attempts[|attempts| - 1])
    else AttemptFor(attempts[..|attempts| - 1], stepId)
  }

  function OutcomeOf(entry: ReceiptEntry, decisions: seq<StepDecision>): Outcome {
    match entry.decision
    case Reuse => Reused
    case Blocked => OutcomeBlocked
    case PendingDependency => OutcomePending
    case Rerun =>
      match DecisionFor(decisions, entry.stepId)
      case None => NotRecorded
      case Some(d) =>
        if d.reason == "EXECUTED_SUCCESSFULLY" then Executed
        else if d.reason == "EXECUTION_FAILED" then OutcomeFailed
        else NotRecorded
  }

  function Finalized(entry: ReceiptEntry, decisions: seq<StepDecision>, attempts: seq<Attempt>): ReceiptEntry {
    var outcome := OutcomeOf(entry, decisions);
    var attempt := AttemptFor(attempts, entry.stepId);
    entry.(outcome := outcome,
      attemptId := if (outcome == HandoffTypes.Executed || outcome == OutcomeFailed) && attempt.Some?
        then Some(attempt.value.attemptId) else None)
  }

  function FinalEntries(entries: seq<ReceiptEntry>, decisions: seq<StepDecision>, attempts: seq<Attempt>)
    : (final: seq<ReceiptEntry>)
    ensures |final| == |entries|
    ensures forall i :: 0 <= i < |final| ==> final[i] == Finalized(entries[i], decisions, attempts)
  {
    seq(|entries|, i requires 0 <= i < |entries| => Finalized(entries[i], decisions, attempts))
  }

  function FinalReceipt(r: Receipt, entries: seq<ReceiptEntry>): Receipt {
    r.(receiptId := ReceiptId(r.handoffId, entries), entries := entries)
  }

  // ----- the service ----------------------------------------------------------------------

  datatype Served = Served(evaluation: Evaluation, report: Report, run: AgentRun)

  /** A run of the service: the evaluation, the engine's run, the final receipt and the client at the end. */
  function Closed(c: Client, receipt: Receipt, run: AgentRun): Client {
    Put(Put(c, ReceiptRecord(receipt)), Record.Run(run))
  }

  function ServiceJob(q: Query, recipient: Principal, compute: (string, Value) -> Option<Value>, fails: set<string>,
    newId: string -> string): Job
  {
    Job(q, Some(recipient), compute, fails, newId)
  }

  class AgentHandoffService {
    const store: SibylStore
    const order: DigestOrder

    constructor (store: SibylStore, order: DigestOrder)
      ensures this.store == store && this.order == order
    {
      this.store := store;
      this.order := order;
    }

    method SaveSources(id: HandoffId, now: int, candidates: seq<Candidate>)
      modifies store.client
      ensures store.State() == WithSources(old(store.State()), id, store.scope, now, candidates)
    {
      for i := 0 to |candidates|
        invariant store.State() == WithSources(old(store.State()), id, store.scope, now, candidates[..i])
      {
        assert candidates[..i + 1][..i] == candidates[..i];
        var source := candidates[i].decision.evidence.source;
        if source.Some? {
          var saved := store.Save(SourceSession(id, store.scope, now, source.value));
        }
      }
      assert candidates[..|candidates|] == candidates;
    }

    method FinalizeEntries(entries: seq<ReceiptEntry>, decisions: seq<StepDecision>, attempts: seq<Attempt>)
      returns (final: seq<ReceiptEntry>)
      ensures final == FinalEntries(entries, decisions, attempts)
    {
      final := [];
      for i := 0 to |entries|
        invariant |final| == i
        invariant forall j :: 0 <= j < i ==> final[j] == Finalized(entries[j], decisions, attempts)
      {
        final := final + [Finalized(entries[i], decisions, attempts)];
      }
    }

    /** Before the engine runs: the gate's record and the sessions. */
    method SaveHandoff(e: Evaluation, recipient: Principal, now: int)
      requires e.record.scope == store.scope
      modifies store.client
      ensures store.State() == WithHandoff(old(store.State()), e, recipient, store.scope, now)
    {
      var recorded := store.Save(Handoff(e.record));
      var seated := store.Save(Session(AgentSession(store.scope, recipient, "agent_b", e.handoffId, now)));
      SaveSources(e.handoffId, now, e.candidates);
    }

    /** After it: the final receipt, and the agent's run. */
    method Settle(e: Evaluation, report: Report, runId: string, recipient: Principal, answer: Option<Value>, now: int)
      returns (served: Served)
      requires e.receipt.scope == store.scope
      modifies store.client
      ensures var entries := FinalEntries(e.receipt.entries, report.decisions, report.attempts);
        var receipt := FinalReceipt(e.receipt, entries);
        var run := AgentRun(store.scope, runId, e.handoffId, recipient, answer, now);
        && served == Served(e.(receipt := receipt), report, run)
        && store.State() == Closed(old(store.State()), receipt, run)
    {
      hide Finalized;
      var final := FinalizeEntries(e.receipt.entries, report.decisions, report.attempts);
      var receipt := FinalReceipt(e.receipt, final);
      var d := store.Save(ReceiptRecord(receipt));
      var run := AgentRun(store.scope, runId, e.handoffId, recipient, answer, now);
      var f := store.Save(Record.Run(run));
      return Served(e.(receipt := receipt), report, run);
    }

    /** `None` stands for an exception: a foreign scope, an invalid request or a guard change nothing; a record that
        the engine cannot decode leaves behind what was written before it. */
    method Run(request: Request, now: int, recipient: Principal, policies: PolicySet,
      compute: (string, Value) -> Option<Value>, fails: set<string>, newId: string -> string,
      runId: string, answer: Option<Value>)
      returns (served: Option<Served>)
      requires Consistent(store.State())
      modifies store.client
      ensures !Judged(request, now, recipient, policies, old(store.State()), store.scope, order) ==>
        served.None? && store.State() == old(store.State())
      ensures Judged(request, now, recipient, policies, old(store.State()), store.scope, order) ==>
        var e := EvaluationOf(request, now, recipient, policies, old(store.State()), store.scope, order);
        var start := WithHandoff(old(store.State()), e, recipient, store.scope, now);
        var job := ServiceJob(QueryOf(request, now), recipient, compute, fails, newId);
        && (served.Some? <==> RunsThrough(job, start))
        && (served.Some? ==>
          && ServedAs(e, job, start, store.State(), served.value)
          && served.value.run == AgentRun(request.scope, runId, e.handoffId, recipient, answer, now))
        && (served.None? ==> exists k: nat ::
          RaisesAt(job, WithPlan(start, job.q), k) && store.State() == After(job, WithPlan(start, job.q), k).client)
    {
      hide Evaluated, Complete, After, WithPlan, RunsTo, RaisesAt, Raises, WithSources, CostSummary, Accepted, QueryOf;
      hide DeskOf, Consistent, Finalized, ReportOf, KeyOf, OnlyPapers, RunsThrough;
      if request.scope != store.scope {
        return None;
      }
      var gate := new HandoffGate(store, order);
      var evaluation := gate.Evaluate(request, now, recipient, policies);
      if evaluation.None? {
        return None;
      }
      var e := evaluation.value;
      EvaluationNamesScope(DeskOf(request, now, recipient, policies, store.State(), store.scope, order));
      DeskScope(request, now, recipient, policies, store.State(), store.scope, order);
      QueryNames(request, now);
      SaveHandoff(e, recipient, now);
      HandoffKeepsStore(old(store.State()), e, recipient, store.scope, now);
      var engine := new DeltaEngine(store, Some(recipient));
      var report := engine.Execute(request, now, compute, fails, newId);
      if report.None? {
        return None;
      }
      var done := Settle(e, report.value, runId, recipient, answer, now);
      served := Some(done);
      ghost var job := ServiceJob(QueryOf(request, now), recipient, compute, fails, newId);
      ghost var start := WithHandoff(old(store.State()), e, recipient, store.scope, now);
      ReportNames(job.q, Complete(job, start));
      assert ServedAs(e, job, start, store.State(), served.value);
    }
  }

  lemma ReportNames(q: Query, p: Progress)
    ensures ReportOf(q, p).decisions == p.decisions && ReportOf(q, p).attempts == p.attempts
  {
  }

  /** The gate was reached and finished. */
  ghost predicate Judged(request: Request, now: int, recipient: Principal, policies: PolicySet, c: Client, owner: Scope,
    order: DigestOrder)
    requires Consistent(c)
  {
    && request.scope == owner && Accepted(request)
    && Evaluated(DeskOf(request, now, recipient, policies, c, owner, order)).Some?
  }

  ghost function EvaluationOf(request: Request, now: int, recipient: Principal, policies: PolicySet, c: Client,
    owner: Scope, order: DigestOrder): Evaluation
    requires Consistent(c) && Judged(request, now, recipient, policies, c, owner, order)
  {
    Evaluated(DeskOf(request, now, recipient, policies, c, owner, order)).value
  }

  /** What a run of the service leaves behind and answers: the engine's run from `start`, then the final receipt and
      the agent's run. */
  ghost predicate ServedAs(e: Evaluation, job: Job, start: Client, after: Client, served: Served) {
    var done := Complete(job, start);
    var receipt := FinalReceipt(e.receipt, FinalEntries(e.receipt.entries, done.decisions, done.attempts));
    && served.evaluation == e.(receipt := receipt)
    && receipt == Receipt(ReceiptId(e.receipt.handoffId, receipt.entries), e.receipt.handoffId, e.receipt.scope,
         e.receipt.workflowId, e.receipt.recipient, receipt.entries, e.receipt.counts, e.receipt.createdAt)
    && served.report == ReportOf(job.q, done)
    && served.run.scope == job.q.scope
    && after == Closed(done.client, receipt, served.run)
  }

  lemma EvaluationNamesScope(d: Desk)
    ensures Evaluated(d).Some? ==>
      var e := Evaluated(d).value;
      && e.record.scope == d.q.scope && e.receipt.scope == d.q.scope
      && e.record.handoffId == e.handoffId
  {
    hide Guarded, Sorted, RecordGuard, ContextGuard, ReceiptGuard, IdOf, EntriesOf, Counts;
  }

  lemma DeskScope(request: Request, now: int, recipient: Principal, policies: PolicySet, c: Client, owner: Scope,
    order: DigestOrder)
    requires Accepted(request) && Consistent(c)
    ensures DeskOf(request, now, recipient, policies, c, owner, order).q.scope == request.scope
  {
  }

  // ----- what the handoff leaves alone ----------------------------------------------------

  /** Saving the handoff record and sessions touches no work record, attempt or head. */
  ghost predicate OnlyPapers(a: Client, b: Client) {
    && b.heads == a.heads
    && (forall k: Key :: k.WorkKey? || k.AttemptKey? ==>
      (k in b.entities <==> k in a.entities) && (k in a.entities ==> b.entities[k] == a.entities[k]))
  }

  lemma PaperKeepsStore(c: Client, r: Record)
    requires Consistent(c) && !r.Damaged? && !r.Work? && !r.AttemptRecord?
    ensures Consistent(Put(c, r)) && OnlyPapers(c, Put(c, r))
  {
  }

  lemma {:induction false} SourcesKeepStore(c: Client, id: HandoffId, scope: Scope, now: int,
    candidates: seq<Candidate>)
    requires Consistent(c)
    ensures Consistent(WithSources(c, id, scope, now, candidates))
    ensures OnlyPapers(c, WithSources(c, id, scope, now, candidates))
  {
    hide Consistent, Put;
    if candidates != [] {
      SourcesKeepStore(c, id, scope, now, candidates[..|candidates| - 1]);
      var before := WithSources(c, id, scope, now, candidates[..|candidates| - 1]);
      var source := candidates[|candidates| - 1].decision.evidence.source;
      if source.Some? {
        PaperKeepsStore(before, SourceSession(id, scope, now, source.value));
      }
    }
  }

  lemma HandoffKeepsStore(c: Client, e: Evaluation, recipient: Principal, scope: Scope, now: int)
    requires Consistent(c)
    ensures Consistent(WithHandoff(c, e, recipient, scope, now))
    ensures OnlyPapers(c, WithHandoff(c, e, recipient, scope, now))
  {
    hide WithSources, Put, Consistent;
    var recorded := Put(c, Handoff(e.record));
    var seat := Session(AgentSession(scope, recipient, "agent_b", e.handoffId, now));
    PaperKeepsStore(c, Handoff(e.record));
    PaperKeepsStore(recorded, seat);
    SourcesKeepStore(Put(recorded, seat), e.handoffId, scope, now, e.candidates);
  }
}
