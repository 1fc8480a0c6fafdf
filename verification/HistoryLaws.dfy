/** Whole histories of one shared client, from the empty one: engine runs and service runs of any projects, workflows,
    inputs, times, principals, policies and executor failures, deletions of records and resets of heads, in any order.
    Every output is what evaluation from scratch gives. */
module HistoryLaws {
  import opened Options
  import opened Json
  import opened Types
  import opened HandoffTypes
  import opened Core
  import opened Store
  import opened Planning
  import opened Engine
  import opened EngineLaws
  import opened Gate
  import opened GateLaws
  import opened Service
  import opened CacheLaws

  /** A run of the engine on its own, a run of the service with the agent's answer, or one of the two ways to clear what
      a project has stored. */
  datatype Event =
    | EngineRun(request: Request, now: int, principal: Option<Principal>, fails: set<string>, newId: string -> string)
    | ServiceRun(request: Request, now: int, recipient: Principal, policies: PolicySet, order: DigestOrder,
        fails: set<string>, newId: string -> string, runId: string, answer: Option<Value>)
    | Deletion(scope: Scope, workflowIds: set<string>, stepIds: set<string>)
    | Reset(scope: Scope, heads: seq<string>)

  predicate IsRun(e: Event) {
    e.EngineRun? || e.ServiceRun?
  }

  function JobFor(compute: Compute, e: Event): Job
    requires IsRun(e) && Accepted(e.request)
  {
    match e
    case EngineRun(request, now, principal, fails, newId) =>
      Job(QueryOf(request, now), principal, compute, fails, newId)
    case ServiceRun(request, now, recipient, _, _, fails, newId, _, _) =>
      ServiceJob(QueryOf(request, now), recipient, compute, fails, newId)
  }

  /** The event is a run, and its request gets as far as the engine. */
  ghost predicate Proceeds(e: Event, c: Client)
    requires Consistent(c)
  {
    match e
    case Deletion(_, _, _) => false
    case Reset(_, _) => false
    case EngineRun(request, _, _, _, _) => Accepted(request)
    case ServiceRun(request, now, recipient, policies, order, _, _, _, _) =>
      Judged(request, now, recipient, policies, c, request.scope, order)
  }

  ghost function JudgedAs(e: Event, c: Client): Evaluation
    requires Consistent(c) && e.ServiceRun? && Proceeds(e, c)
  {
    EvaluationOf(e.request, e.now, e.recipient, e.policies, c, e.request.scope, e.order)
  }

  /** The client from which the engine runs. */
  ghost function EngineStart(e: Event, c: Client): Client
    requires Consistent(c) && Proceeds(e, c)
  {
    match e
    case EngineRun(_, _, _, _, _) => c
    case ServiceRun(request, now, recipient, _, _, _, _, _, _) =>
      WithHandoff(c, JudgedAs(e, c), recipient, request.scope, now)
  }

  /** What the service answers. */
  ghost function Answer(compute: Compute, e: Event, c: Client): Served
    requires Consistent(c) && e.ServiceRun? && Proceeds(e, c)
  {
    var v, done := JudgedAs(e, c), Complete(JobFor(compute, e), EngineStart(e, c));
    var entries := FinalEntries(v.receipt.entries, done.decisions, done.attempts);
    Served(v.(receipt := FinalReceipt(v.receipt, entries)), ReportOf(JobFor(compute, e).q, done),
      AgentRun(e.request.scope, e.runId, v.handoffId, e.recipient, e.answer, e.now))
  }

  /** The client after an event; a refused request changes nothing. */
  ghost function Following(compute: Compute, e: Event, c: Client): Client
    requires Consistent(c)
  {
    if e.Deletion? then DeleteScope(c, e.scope, e.workflowIds, e.stepIds)
    else if e.Reset? then ResetHeads(c, e.scope, e.heads)
    else if !Proceeds(e, c) then c else
    var done := Complete(JobFor(compute, e), EngineStart(e, c));
    if e.EngineRun? then done.client
    else
      var served := Answer(compute, e, c);
      Closed(done.client, served.evaluation.receipt, served.run)
  }

  /** A service event ends as the service's contract says. */
  lemma FollowingIsServed(compute: Compute, e: Event, c: Client)
    requires Consistent(c) && e.ServiceRun? && Proceeds(e, c)
    ensures ServedAs(JudgedAs(e, c), JobFor(compute, e), EngineStart(e, c), Following(compute, e, c),
      Answer(compute, e, c))
  {
    hide Complete, EngineStart, JudgedAs, Finalized, CostSummary, Judged;
  }

  /** The two ways to clear remove exactly the selected records, or clear exactly the given heads; an engine run ends as
      the engine's contract says; a request that gets nowhere changes nothing. */
  lemma FollowingIsWhatItSays(compute: Compute, e: Event, c: Client)
    requires Consistent(c)
    ensures e.Deletion? ==> Removes(c, Following(compute, e, c), e.scope, e.workflowIds, e.stepIds)
    ensures e.Reset? ==>
      && Following(compute, e, c).entities == c.entities
      && HeadsCleared(c, Following(compute, e, c), e.scope, e.heads)
    ensures e.EngineRun? && Accepted(e.request) ==>
      var job := Job(QueryOf(e.request, e.now), e.principal, compute, e.fails, e.newId);
      Following(compute, e, c) == Complete(job, c).client
    ensures IsRun(e) && !Proceeds(e, c) ==> Following(compute, e, c) == c
  {
    hide Removes, Complete, QueryOf, Accepted, DeleteScope, ResetHeads, Judged, Head;
    if e.Deletion? {
      DeletionRemoves(c, e.scope, e.workflowIds, e.stepIds);
    }
    if e.Reset? {
      forall scope, stepId
        ensures Head(ResetHeads(c, e.scope, e.heads), scope, stepId)
          == if scope == e.scope && stepId in e.heads then None else Head(c, scope, stepId)
      {
        ResetClears(c, e.scope, e.heads, scope, stepId);
      }
      ResetKeepsRecords(c, e.scope, e.heads);
    }
  }

  ghost predicate HeadsCleared(before: Client, after: Client, owner: Scope, heads: seq<string>) {
    forall scope, stepId :: Head(after, scope, stepId) ==
      if scope == owner && stepId in heads then None else Head(before, scope, stepId)
  }

  lemma {:induction false} ResetClears(c: Client, owner: Scope, heads: seq<string>, scope: Scope, stepId: string)
    ensures Head(ResetHeads(c, owner, heads), scope, stepId)
      == if scope == owner && stepId in heads then None else Head(c, scope, stepId)
  {
    if heads != [] {
      var n := |heads| - 1;
      ResetClears(c, owner, heads[..n], scope, stepId);
      assert heads == heads[..n] + [heads[n]];
    }
  }

  lemma {:induction false} ResetKeepsRecords(c: Client, owner: Scope, heads: seq<string>)
    ensures ResetHeads(c, owner, heads).entities == c.entities
  {
    if heads != [] {
      ResetKeepsRecords(c, owner, heads[..|heads| - 1]);
    }
  }

  // ----- one event ------------------------------------------------------------------------

  lemma {:induction false} SourcesKeepClean(c: Client, compute: Compute, id: HandoffId, scope: Scope, now: int,
    candidates: seq<Candidate>)
    requires Clean(c, compute)
    ensures Clean(WithSources(c, id, scope, now, candidates), compute)
    ensures Vouched(c) ==> Vouched(WithSources(c, id, scope, now, candidates))
  {
    hide Clean, Vouched, Put;
    if candidates != [] {
      SourcesKeepClean(c, compute, id, scope, now, candidates[..|candidates| - 1]);
      var before := WithSources(c, id, scope, now, candidates[..|candidates| - 1]);
      var source := candidates[|candidates| - 1].decision.evidence.source;
      if source.Some? {
        PaperKeepsClean(before, compute, SourceSession(id, scope, now, source.value));
      }
    }
  }

  lemma StartIsClean(compute: Compute, e: Event, c: Client)
    requires Clean(c, compute) && Proceeds(e, c)
    ensures Clean(EngineStart(e, c), compute) && (Vouched(c) ==> Vouched(EngineStart(e, c)))
  {
    hide Clean, Vouched, Put, WithSources, Judged, EvaluationOf;
    CleanIsSound(c, compute);
    if e.ServiceRun? {
      var v := JudgedAs(e, c);
      var recorded := Put(c, Handoff(v.record));
      var seat := Session(AgentSession(e.request.scope, e.recipient, "agent_b", v.handoffId, e.now));
      PaperKeepsClean(c, compute, Handoff(v.record));
      PaperKeepsClean(recorded, compute, seat);
      SourcesKeepClean(Put(recorded, seat), compute, v.handoffId, e.request.scope, e.now, v.candidates);
    }
  }

  lemma AcceptedIsSequenced(request: Request, now: int)
    requires Accepted(request)
    ensures Sequenced(QueryOf(request, now).steps)
  {
    hide Sequenced, Ordered, Normalized, ValidWorkflow, ValidInputs;
    OrderedIsSequenced(request.workflow);
  }

  /** A run that proceeds keeps the store clean, never raises, and computes. */
  lemma RunComputes(compute: Compute, e: Event, c: Client)
    requires Clean(c, compute) && Proceeds(e, c)
    ensures Clean(Following(compute, e, c), compute)
    ensures var job, start := JobFor(compute, e), EngineStart(e, c);
      RunsThrough(job, start) && Computes(job, Complete(job, start).outputs)
  {
    hide Clean, Complete, RunsThrough, EngineStart, Scratch, Sequenced, Put, Accepted, QueryOf, EvaluationOf, Finalized;
    hide CostSummary;
    CleanIsSound(c, compute);
    StartIsClean(compute, e, c);
    var job, start := JobFor(compute, e), EngineStart(e, c);
    AcceptedIsSequenced(e.request, e.now);
    RunsComputeScratch(job, start);
    if e.ServiceRun? {
      var served, done := Answer(compute, e, c), Complete(job, start).client;
      PaperKeepsClean(done, compute, ReceiptRecord(served.evaluation.receipt));
      PaperKeepsClean(Put(done, ReceiptRecord(served.evaluation.receipt)), compute, Record.Run(served.run));
    }
  }

  /** With fresh attempt ids, a run keeps every record naming its persisted attempt. */
  lemma RunVouches(compute: Compute, e: Event, c: Client)
    requires Good(c, compute) && Proceeds(e, c)
    requires var job := JobFor(compute, e);
      FreshIds(job, WithPlan(EngineStart(e, c), job.q))
    ensures Vouched(Following(compute, e, c))
  {
    hide Clean, Vouched, FreshIds, Complete, EngineStart, WithPlan, Put, Accepted, QueryOf, EvaluationOf, Finalized;
    hide CostSummary, RunsThrough, Scratch, Sequenced;
    CleanIsSound(c, compute);
    StartIsClean(compute, e, c);
    var job, start := JobFor(compute, e), EngineStart(e, c);
    AcceptedIsSequenced(e.request, e.now);
    RunsComputeScratch(job, start);
    RunsKeepVouched(job, start);
    if e.ServiceRun? {
      var served, done := Answer(compute, e, c), Complete(job, start).client;
      PaperKeepsClean(done, compute, ReceiptRecord(served.evaluation.receipt));
      PaperKeepsClean(Put(done, ReceiptRecord(served.evaluation.receipt)), compute, Record.Run(served.run));
    }
  }

  /** What is left after a deletion is as sound as before; a record may have lost its attempt. */
  lemma DeletionKeepsClean(c: Client, compute: Compute, scope: Scope, workflowIds: set<string>, stepIds: set<string>)
    requires Clean(c, compute)
    ensures Clean(DeleteScope(c, scope, workflowIds, stepIds), compute)
  {
    hide Selected, SoundRecord;
  }

  lemma {:induction false} ResetKeepsClean(c: Client, compute: Compute, scope: Scope, heads: seq<string>)
    requires Clean(c, compute)
    ensures Clean(ResetHeads(c, scope, heads), compute) && ResetHeads(c, scope, heads).entities == c.entities
    ensures Vouched(c) ==> Vouched(ResetHeads(c, scope, heads))
  {
    hide SoundRecord, Consistent, Sound, Decodable;
    if heads != [] {
      ResetKeepsClean(c, compute, scope, heads[..|heads| - 1]);
      SameEntitiesSame(ResetHeads(c, scope, heads[..|heads| - 1]), ResetHeads(c, scope, heads), compute);
    }
  }

  lemma SameEntitiesSame(c: Client, c': Client, compute: Compute)
    requires c'.entities == c.entities
    ensures Consistent(c) ==> Consistent(c')
    ensures Decodable(c) ==> Decodable(c')
    ensures Sound(c, compute) ==> Sound(c', compute)
  {
  }

  /** The outputs are values of evaluation from scratch, and all of them when every step has an executor that does
      not fail. */
  ghost predicate Computes(job: Job, outputs: map<string, Value>) {
    var scratch := Scratch(job.q, job.compute, |job.q.steps|);
    && Extends(outputs, scratch)
    && (job.fails == {} && (forall i :: 0 <= i < |job.q.steps| ==> job.q.steps[i].executable) ==> outputs == scratch)
  }

  // ----- histories ------------------------------------------------------------------------

  /** The clients along a history, from the empty one. */
  ghost predicate History(compute: Compute, events: seq<Event>, states: seq<Client>) {
    && |states| == |events| + 1 && states[0] == EMPTY
    && (forall i :: 0 <= i < |states| ==> Consistent(states[i]))
    && (forall i :: 0 <= i < |events| ==> states[i + 1] == Following(compute, events[i], states[i]))
  }

  lemma StepKeepsConsistent(job: Job, p: Progress, step: Step)
    requires Consistent(p.client)
    ensures Consistent(ExecuteStep(job, p, step).client)
  {
    hide StepInput, SignatureFor, Reusable, ActiveAttempt, OutputSignature, FreshUntil, ProvenanceFor;
  }

  lemma {:induction false} RunKeepsConsistent(job: Job, c: Client, k: nat)
    requires Consistent(c) && k <= |job.q.steps|
    ensures Consistent(After(job, c, k).client)
  {
    hide Consistent, ExecuteStep;
    if k > 0 {
      RunKeepsConsistent(job, c, k - 1);
      StepKeepsConsistent(job, After(job, c, k - 1), job.q.steps[k - 1]);
    }
  }

  lemma FollowingIsConsistent(compute: Compute, e: Event, c: Client)
    requires Consistent(c)
    ensures Consistent(Following(compute, e, c))
  {
    hide Consistent, After, WithHandoff, Put, Evaluated, EvaluationOf, Finalized, CostSummary, LookupPreview;
    hide Accepted, QueryOf, PlanOf, OnlyPapers;
    if e.Deletion? {
      DeletionKeepsConsistent(c, e.scope, e.workflowIds, e.stepIds);
    } else if e.Reset? {
      ResetKeepsConsistent(c, e.scope, e.heads);
    } else if Proceeds(e, c) {
      if e.ServiceRun? { HandoffKeepsStore(c, JudgedAs(e, c), e.recipient, e.request.scope, e.now); }
      var job, start := JobFor(compute, e), EngineStart(e, c);
      PaperKeepsStore(start, PlanRecord(PlanOf(job.q, LookupPreview(start, job.q, |job.q.steps|).decisions)));
      RunKeepsConsistent(job, WithPlan(start, job.q), |job.q.steps|);
      if e.ServiceRun? {
        var served, done := Answer(compute, e, c), Complete(job, start).client;
        PaperKeepsStore(done, ReceiptRecord(served.evaluation.receipt));
        PaperKeepsStore(Put(done, ReceiptRecord(served.evaluation.receipt)), Record.Run(served.run));
      }
    }
  }

  lemma DeletionKeepsConsistent(c: Client, scope: Scope, workflowIds: set<string>, stepIds: set<string>)
    requires Consistent(c)
    ensures Consistent(DeleteScope(c, scope, workflowIds, stepIds))
  {
    hide Selected, Fits;
  }

  lemma {:induction false} ResetKeepsConsistent(c: Client, scope: Scope, heads: seq<string>)
    requires Consistent(c)
    ensures Consistent(ResetHeads(c, scope, heads))
  {
    hide Fits;
    if heads != [] {
      ResetKeepsConsistent(c, scope, heads[..|heads| - 1]);
    }
  }

  /** Every sequence of events has its history. */
  lemma {:induction false} HistoriesExist(compute: Compute, events: seq<Event>) returns (states: seq<Client>)
    ensures History(compute, events, states)
  {
    hide Consistent, Following, Clean, Vouched;
    if events == [] {
      states := [EMPTY];
      EmptyIsGood(compute);
      CleanIsSound(EMPTY, compute);
    } else {
      var n := |events| - 1;
      var before := HistoriesExist(compute, events[..n]);
      FollowingIsConsistent(compute, events[n], before[n]);
      states := before + [Following(compute, events[n], before[n])];
      forall i | 0 <= i < |events| ensures states[i + 1] == Following(compute, events[i], states[i]) {
        if i < n { assert events[..n][i] == events[i]; }
      }
    }
  }

  /** Every run draws its attempt ids new. */
  ghost predicate Fresh(compute: Compute, events: seq<Event>, states: seq<Client>)
    requires History(compute, events, states)
  {
    forall i :: 0 <= i < |events| && Proceeds(events[i], states[i]) ==>
      var job := JobFor(compute, events[i]);
      FreshIds(job, WithPlan(EngineStart(events[i], states[i]), job.q))
  }

  lemma EventKeepsClean(compute: Compute, e: Event, c: Client)
    requires Clean(c, compute)
    ensures Clean(Following(compute, e, c), compute)
  {
    hide Clean, Complete, RunsThrough, EngineStart, Computes, Answer, Proceeds, DeleteScope, ResetHeads;
    CleanIsSound(c, compute);
    if e.Deletion? {
      DeletionKeepsClean(c, compute, e.scope, e.workflowIds, e.stepIds);
    } else if e.Reset? {
      ResetKeepsClean(c, compute, e.scope, e.heads);
    } else if Proceeds(e, c) {
      RunComputes(compute, e, c);
    }
  }

  lemma {:induction false} HistoryIsClean(compute: Compute, events: seq<Event>, states: seq<Client>, k: nat)
    requires History(compute, events, states) && k <= |events|
    ensures Clean(states[k], compute)
  {
    hide Following, Clean, Consistent;
    if k == 0 {
      EmptyIsGood(compute);
    } else {
      HistoryIsClean(compute, events, states, k - 1);
      EventKeepsClean(compute, events[k - 1], states[k - 1]);
    }
  }

  /** As long as nothing is deleted and attempt ids are drawn new, every record also names its persisted succeeded
      attempt. */
  lemma {:induction false} HistoryIsGood(compute: Compute, events: seq<Event>, states: seq<Client>, k: nat)
    requires History(compute, events, states) && Fresh(compute, events, states) && k <= |events|
    requires forall i :: 0 <= i < k ==> !events[i].Deletion?
    ensures Good(states[k], compute)
  {
    hide FreshIds, Following, Proceeds, JobFor, EngineStart, Clean, Vouched, Consistent;
    HistoryIsClean(compute, events, states, k);
    if k == 0 {
      EmptyIsGood(compute);
    } else {
      HistoryIsGood(compute, events, states, k - 1);
      if Proceeds(events[k - 1], states[k - 1]) {
        RunVouches(compute, events[k - 1], states[k - 1]);
      } else {
        OtherEventsVouch(compute, events[k - 1], states[k - 1]);
      }
    }
  }

  lemma EmptyIsGood(compute: Compute)
    ensures Good(EMPTY, compute)
  {
  }

  lemma OtherEventsVouch(compute: Compute, e: Event, c: Client)
    requires Good(c, compute) && !Proceeds(e, c) && !e.Deletion?
    ensures Vouched(Following(compute, e, c))
  {
    hide Clean, Vouched, Proceeds, ResetHeads;
    if e.Reset? {
      ResetKeepsClean(c, compute, e.scope, e.heads);
    }
  }

  /** In every history of engine runs, service runs, deletions and resets, whatever a run outputs -- reused or executed,
      gated or not -- is what evaluating its workflow from scratch gives, and no run raises. */
  lemma CacheIsCorrect(compute: Compute, events: seq<Event>, states: seq<Client>, i: nat)
    requires History(compute, events, states) && i < |events| && Proceeds(events[i], states[i])
    ensures Clean(states[i], compute) && Clean(states[i + 1], compute)
    ensures var job, start := JobFor(compute, events[i]), EngineStart(events[i], states[i]);
      RunsThrough(job, start) && Computes(job, Complete(job, start).outputs)
  {
    hide Following, Proceeds, JobFor, EngineStart, Clean, Complete, RunsThrough, Computes;
    HistoryIsClean(compute, events, states, i);
    HistoryIsClean(compute, events, states, i + 1);
    RunComputes(compute, events[i], states[i]);
  }
}
