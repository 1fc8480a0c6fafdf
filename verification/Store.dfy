/** `delta/store.py`: one scoped store over a client that several projects share.  The client is a map of
    entities and a map of attempt heads; keys are digests of (kind, scope, parts), so they are represented by
    those parts.  `Client` is the client as a value; the classes below update one in place. */
module Store {
  import opened Options
  import opened Json
  import opened Types
  import opened HandoffTypes
  import opened Core

  datatype Key =
    | WorkKey(scope: Scope, workflowId: string, stepId: string, signature: Signature)
    | AttemptKey(scope: Scope, attemptId: string)
    | PlanKey(scope: Scope, planId: Signature)
    | HandoffKey(scope: Scope, handoffId: HandoffId)
    | ReceiptKey(scope: Scope, receiptId: ReceiptId)
    | SessionKey(scope: Scope, sessionId: string)
    | RunKey(scope: Scope, runId: string)

  datatype Slot = Slot(scope: Scope, stepId: string)

  /** A persisted payload.  `Damaged` is a work record whose body no longer decodes; what its body still
      says about itself is all that is known of it. */
  datatype Record =
    | Work(result: WorkResult)
    | Damaged(scope: Scope, workflow: Option<string>, step: Option<string>)
    | AttemptRecord(attempt: Attempt)
    | PlanRecord(plan: RevisionPlan)
    | Handoff(handoff: HandoffRecord)
    | ReceiptRecord(receipt: Receipt)
    | Session(session: AgentSession)
    | Run(run: AgentRun)

  datatype Client = Client(entities: map<Key, Record>, heads: map<Slot, Option<string>>)

  const EMPTY := Client(map[], map[])

  /** `payload["scope"]`, and what `payload.get("workflow_id")` and `payload.get("step_id")` give. */
  function PayloadScope(r: Record): Scope {
    match r
    case Work(w) => w.scope
    case Damaged(scope, _, _) => scope
    case AttemptRecord(a) => a.scope
    case PlanRecord(p) => p.scope
    case Handoff(h) => h.scope
    case ReceiptRecord(t) => t.scope
    case Session(s) => s.scope
    case Run(u) => u.scope
  }

  function PayloadWorkflow(r: Record): Option<string> {
    match r
    case Work(w) => Some(w.workflowId)
    case Damaged(_, workflow, _) => workflow
    case AttemptRecord(a) => Some(a.workflowId)
    case PlanRecord(p) => Some(p.workflowId)
    case Handoff(h) => Some(h.workflowId)
    case ReceiptRecord(t) => Some(t.workflowId)
    case Session(_) => None
    case Run(_) => None
  }

  function PayloadStep(r: Record): Option<string> {
    match r
    case Work(w) => Some(w.stepId)
    case Damaged(_, _, step) => step
    case AttemptRecord(a) => Some(a.stepId)
    case _ => None
  }

  /** The record was saved under the key of its own identity. */
  predicate Fits(k: Key, r: Record) {
    match k
    case WorkKey(scope, workflowId, stepId, signature) =>
      (match r
       case Work(w) => w.scope == scope && w.workflowId == workflowId && w.stepId == stepId
         && w.inputSignature == signature && w.outputSignature == OutputSignature(w.output)
       case Damaged(s, _, _) => s == scope
       case _ => false)
    case AttemptKey(scope, id) => r.AttemptRecord? && r.attempt.scope == scope && r.attempt.attemptId == id
    case PlanKey(scope, id) => r.PlanRecord? && r.plan.scope == scope && r.plan.planId == id
    case HandoffKey(scope, id) => r.Handoff? && r.handoff.scope == scope && r.handoff.handoffId == id
    case ReceiptKey(scope, id) => r.ReceiptRecord? && r.receipt.scope == scope && r.receipt.receiptId == id
    case SessionKey(scope, id) => r.Session? && r.session.scope == scope && r.session.principal.sessionId == id
    case RunKey(scope, id) => r.Run? && r.run.scope == scope && r.run.runId == id
  }

  predicate Consistent(c: Client) {
    forall k :: k in c.entities ==> Fits(k, c.entities[k])
  }

  /** Every work record decodes. */
  predicate Decodable(c: Client) {
    forall k :: k in c.entities ==> !c.entities[k].Damaged?
  }

  // ----- operations on the client as a value -----------------------------------------------

  function KeyOf(r: Record): Key
    requires !r.Damaged?
  {
    match r
    case Work(w) => WorkKey(w.scope, w.workflowId, w.stepId, w.inputSignature)
    case AttemptRecord(a) => AttemptKey(a.scope, a.attemptId)
    case PlanRecord(p) => PlanKey(p.scope, p.planId)
    case Handoff(h) => HandoffKey(h.scope, h.handoffId)
    case ReceiptRecord(t) => ReceiptKey(t.scope, t.receiptId)
    case Session(s) => SessionKey(s.scope, s.principal.sessionId)
    case Run(u) => RunKey(u.scope, u.runId)
  }

  function Put(c: Client, r: Record): Client
    requires !r.Damaged?
  {
    c.(entities := c.entities[KeyOf(r) := r])
  }

  function SetHead(c: Client, scope: Scope, stepId: string, attemptId: Option<string>): Client {
    c.(heads := c.heads[Slot(scope, stepId) := attemptId])
  }

  function Head(c: Client, scope: Scope, stepId: string): Option<string> {
    if Slot(scope, stepId) in c.heads then c.heads[Slot(scope, stepId)] else None
  }

  function GetWork(c: Client, scope: Scope, workflowId: string, stepId: string, signature: Signature)
    : Option<WorkResult>
  {
    var k := WorkKey(scope, workflowId, stepId, signature);
    if k in c.entities && c.entities[k].Work? then Some(c.entities[k].result) else None
  }

  /** The record under this key does not decode: reading it raises. */
  predicate Unreadable(c: Client, scope: Scope, workflowId: string, stepId: string, signature: Signature) {
    var k := WorkKey(scope, workflowId, stepId, signature);
    k in c.entities && c.entities[k].Damaged?
  }

  function GetAttempt(c: Client, scope: Scope, attemptId: string): Option<Attempt> {
    var k := AttemptKey(scope, attemptId);
    if k in c.entities && c.entities[k].AttemptRecord? then Some(c.entities[k].attempt) else None
  }

  /** The filters of `delete_scope_records`: an empty set of ids means no filter. */
  predicate Selected(r: Record, scope: Scope, workflowIds: set<string>, stepIds: set<string>) {
    && PayloadScope(r) == scope
    && (workflowIds == {} || (PayloadWorkflow(r).Some? && PayloadWorkflow(r).value in workflowIds))
    && (stepIds == {} || (PayloadStep(r).Some? && PayloadStep(r).value in stepIds))
  }

  function Doomed(c: Client, scope: Scope, workflowIds: set<string>, stepIds: set<string>): set<Key> {
    set k | k in c.entities && Selected(c.entities[k], scope, workflowIds, stepIds)
  }

  function DeleteScope(c: Client, scope: Scope, workflowIds: set<string>, stepIds: set<string>): Client {
    c.(entities := c.entities - Doomed(c, scope, workflowIds, stepIds))
  }

  /** A work record whose project, workflow and step are all named goes; one that has another project, workflow or step
      stays, and so do heads.  An empty set names every workflow, or every step. */
  ghost predicate Removes(before: Client, after: Client, scope: Scope, workflowIds: set<string>, stepIds: set<string>) {
    && after.heads == before.heads && after.entities.Keys <= before.entities.Keys
    && forall k :: k in before.entities ==>
      && (k in after.entities ==> after.entities[k] == before.entities[k])
      && match before.entities[k]
         case Work(r) => k !in after.entities <==>
           r.scope == scope && Chosen(workflowIds, r.workflowId) && Chosen(stepIds, r.stepId)
         case AttemptRecord(a) => k !in after.entities <==>
           a.scope == scope && Chosen(workflowIds, a.workflowId) && Chosen(stepIds, a.stepId)
         case Damaged(s, workflow, step) => k !in after.entities <==>
           && s == scope
           && (workflowIds != {} ==> workflow.Some? && workflow.value in workflowIds)
           && (stepIds != {} ==> step.Some? && step.value in stepIds)
         case PlanRecord(p) => k !in after.entities <==>
           p.scope == scope && Chosen(workflowIds, p.workflowId) && stepIds == {}
         case Handoff(h) => k !in after.entities <==>
           h.scope == scope && Chosen(workflowIds, h.workflowId) && stepIds == {}
         case ReceiptRecord(t) => k !in after.entities <==>
           t.scope == scope && Chosen(workflowIds, t.workflowId) && stepIds == {}
         case Session(u) => k !in after.entities <==> u.scope == scope && workflowIds == {} && stepIds == {}
         case Run(u) => k !in after.entities <==> u.scope == scope && workflowIds == {} && stepIds == {}
  }

  predicate Chosen(ids: set<string>, id: string) {
    ids == {} || id in ids
  }

  lemma DeletionRemoves(c: Client, scope: Scope, workflowIds: set<string>, stepIds: set<string>)
    ensures Removes(c, DeleteScope(c, scope, workflowIds, stepIds), scope, workflowIds, stepIds)
  {
  }

  function ResetHeads(c: Client, scope: Scope, stepIds: seq<string>): Client {
    if stepIds == [] then c
    else SetHead(ResetHeads(c, scope, stepIds[..|stepIds| - 1]), scope, stepIds[|stepIds| - 1], None)
  }

  // ----- listings -------------------------------------------------------------------------

  /** The work keys a store of this scope lists for one workflow. */
  predicate Listed(c: Client, scope: Scope, workflowId: string, k: Key) {
    && k in c.entities && c.entities[k].Work?
    && c.entities[k].result.scope == scope && c.entities[k].result.workflowId == workflowId
  }

  predicate UniquelyKeyed(results: seq<WorkResult>) {
    forall i, j :: 0 <= i < j < |results| ==>
      results[i].stepId != results[j].stepId || results[i].inputSignature != results[j].inputSignature
  }

  /** A listing holds each of the scope's results for the workflow once, in any order. */
  ghost predicate Lists(c: Client, scope: Scope, workflowId: string, results: seq<WorkResult>) {
    && UniquelyKeyed(results)
    && forall r :: r in results <==>
      r.scope == scope && r.workflowId == workflowId &&
      GetWork(c, scope, workflowId, r.stepId, r.inputSignature) == Some(r)
  }

  /** The record is reported as undecodable for a step of the workflow. */
  predicate ReportedDamaged(r: Record, scope: Scope, workflowId: string) {
    r.Damaged? && r.scope == scope && r.workflow == Some(workflowId) && r.step.Some? && r.step.value != ""
  }

  /** The steps of the workflow for which an undecodable record is reported. */
  function DamagedSteps(c: Client, scope: Scope, workflowId: string): set<string> {
    set k | k in c.entities && ReportedDamaged(c.entities[k], scope, workflowId) :: c.entities[k].step.value
  }

  // ----- scanning -------------------------------------------------------------------------

  /** What a scan has collected from some of the keys: their listed results, each once. */
  ghost predicate Gathered(c: Client, scope: Scope, workflowId: string, keys: set<Key>, results: seq<WorkResult>) {
    && UniquelyKeyed(results)
    && forall r :: r in results <==>
      exists k :: k in keys && Listed(c, scope, workflowId, k) && r == c.entities[k].result
  }

  ghost function DamagedIn(c: Client, scope: Scope, workflowId: string, keys: set<Key>): set<string> {
    set k | k in keys && k in c.entities && ReportedDamaged(c.entities[k], scope, workflowId)
      :: c.entities[k].step.value
  }

  lemma NothingGathered(c: Client, scope: Scope, workflowId: string)
    ensures Gathered(c, scope, workflowId, {}, []) && DamagedIn(c, scope, workflowId, {}) == {}
  {
  }

  /** Results found under other keys have another step or signature. */
  lemma KeysApart(c: Client, scope: Scope, workflowId: string, j: Key, k: Key)
    requires Consistent(c) && Listed(c, scope, workflowId, j) && Listed(c, scope, workflowId, k) && j != k
    ensures var r, s := c.entities[j].result, c.entities[k].result;
      r.stepId != s.stepId || r.inputSignature != s.inputSignature
  {
    assert Fits(j, c.entities[j]) && Fits(k, c.entities[k]);
  }

  lemma GatherOne(c: Client, scope: Scope, workflowId: string, keys: set<Key>, k: Key, results: seq<WorkResult>)
    requires Consistent(c) && Gathered(c, scope, workflowId, keys, results) && k in c.entities && k !in keys
    ensures Gathered(c, scope, workflowId, keys + {k},
      if Listed(c, scope, workflowId, k) then results + [c.entities[k].result] else results)
    ensures DamagedIn(c, scope, workflowId, keys + {k}) == DamagedIn(c, scope, workflowId, keys) +
      if ReportedDamaged(c.entities[k], scope, workflowId) then {c.entities[k].step.value} else {}
  {
    hide Consistent, ReportedDamaged;
    if Listed(c, scope, workflowId, k) {
      forall r | r in results
        ensures r.stepId != c.entities[k].result.stepId || r.inputSignature != c.entities[k].result.inputSignature
      {
        var j :| j in keys && Listed(c, scope, workflowId, j) && r == c.entities[j].result;
        KeysApart(c, scope, workflowId, j, k);
      }
    }
  }

  lemma AllGathered(c: Client, scope: Scope, workflowId: string, results: seq<WorkResult>)
    requires Consistent(c) && Gathered(c, scope, workflowId, c.entities.Keys, results)
    ensures Lists(c, scope, workflowId, results)
    ensures DamagedIn(c, scope, workflowId, c.entities.Keys) == DamagedSteps(c, scope, workflowId)
  {
    forall r: WorkResult ensures r in results <==> (r.scope == scope && r.workflowId == workflowId
      && GetWork(c, scope, workflowId, r.stepId, r.inputSignature) == Some(r))
    {
      var key := WorkKey(scope, workflowId, r.stepId, r.inputSignature);
      if r in results {
        var k :| k in c.entities && Listed(c, scope, workflowId, k) && r == c.entities[k].result;
        assert Fits(k, c.entities[k]);
      }
      if GetWork(c, scope, workflowId, r.stepId, r.inputSignature) == Some(r) {
        assert Fits(key, c.entities[key]);
      }
    }
  }

  // ----- the classes ----------------------------------------------------------------------

  /** The shared client. */
  class SharedClient {
    var entities: map<Key, Record>
    var heads: map<Slot, Option<string>>

    constructor ()
      ensures State() == EMPTY
    {
      entities, heads := map[], map[];
    }

    function State(): Client
      reads this
    {
      Client(entities, heads)
    }
  }

  /** One project's view of a shared client. */
  class SibylStore {
    const client: SharedClient
    const scope: Scope

    constructor (client: SharedClient, scope: Scope)
      ensures this.client == client && this.scope == scope
    {
      this.client := client;
      this.scope := scope;
    }

    function State(): Client
      reads client
    {
      client.State()
    }

    /** Saving asserts the record's scope first; a foreign record is refused and nothing changes. */
    method Save(r: Record) returns (saved: bool)
      requires !r.Damaged?
      modifies client
      ensures saved == (PayloadScope(r) == scope)
      ensures State() == if saved then Put(old(State()), r) else old(State())
    {
      saved := PayloadScope(r) == scope;
      if saved {
        client.entities := client.entities[KeyOf(r) := r];
      }
    }

    /** What is found is a whole record of that identity; `raised` is the error of a record that does not decode. */
    method GetWorkResult(workflowId: string, stepId: string, signature: Signature)
      returns (r: Option<WorkResult>, raised: bool)
      ensures r == GetWork(State(), scope, workflowId, stepId, signature)
      ensures raised == Unreadable(State(), scope, workflowId, stepId, signature)
      ensures r.Some? && Consistent(State()) ==>
        && r.value.scope == scope && r.value.workflowId == workflowId && r.value.stepId == stepId
        && r.value.inputSignature == signature && r.value.outputSignature == OutputSignature(r.value.output)
    {
      var k := WorkKey(scope, workflowId, stepId, signature);
      assert Consistent(State()) && k in client.entities ==> Fits(k, client.entities[k]);
      r := if k in client.entities && client.entities[k].Work? then Some(client.entities[k].result) else None;
      raised := k in client.entities && client.entities[k].Damaged?;
    }

    method GetExecutionAttempt(attemptId: string) returns (a: Option<Attempt>)
      ensures a == GetAttempt(State(), scope, attemptId)
      ensures a.Some? && Consistent(State()) ==> a.value.scope == scope && a.value.attemptId == attemptId
    {
      var k := AttemptKey(scope, attemptId);
      assert Consistent(State()) && k in client.entities ==> Fits(k, client.entities[k]);
      a := GetAttempt(State(), scope, attemptId);
    }

    method SetActiveAttempt(stepId: string, attemptId: Option<string>)
      modifies client
      ensures State() == SetHead(old(State()), scope, stepId, attemptId)
    {
      client.heads := client.heads[Slot(scope, stepId) := attemptId];
    }

    method GetActiveAttempt(stepId: string) returns (attemptId: Option<string>)
      ensures attemptId == Head(State(), scope, stepId)
    {
      attemptId := Head(State(), scope, stepId);
    }

    /** Scan the client's entities, keep this scope's and workflow's, and sort out what does not decode. */
    method ListWorkRecords(workflowId: string) returns (results: seq<WorkResult>, damaged: set<string>)
      requires Consistent(State())
      ensures Lists(State(), scope, workflowId, results)
      ensures damaged == DamagedSteps(State(), scope, workflowId)
    {
      hide Consistent, Lists, Gathered, DamagedIn;
      results, damaged := [], {};
      var todo := client.entities.Keys;
      ghost var done: set<Key> := {};
      NothingGathered(State(), scope, workflowId);
      while todo != {}
        invariant todo + done == client.entities.Keys && todo !! done
        invariant Gathered(State(), scope, workflowId, done, results)
        invariant damaged == DamagedIn(State(), scope, workflowId, done)
        decreases todo
      {
        var k :| k in todo;
        var record := client.entities[k];
        GatherOne(State(), scope, workflowId, done, k, results);
        if PayloadWorkflow(record) == Some(workflowId) && PayloadScope(record) == scope {
          if record.Work? {
            results := results + [record.result];
          } else if record.Damaged? && record.step.Some? && record.step.value != "" {
            damaged := damaged + {record.step.value};
          }
        }
        todo, done := todo - {k}, done + {k};
      }
      assert done == client.entities.Keys;
      AllGathered(State(), scope, workflowId, results);
    }

    method DeleteScopeRecords(workflowIds: set<string>, stepIds: set<string>) returns (deleted: nat)
      modifies client
      ensures State() == DeleteScope(old(State()), scope, workflowIds, stepIds)
      ensures Removes(old(State()), State(), scope, workflowIds, stepIds)
      ensures deleted == |Doomed(old(State()), scope, workflowIds, stepIds)|
    {
      DeletionRemoves(State(), scope, workflowIds, stepIds);
      var before := client.entities;
      var doomed := Doomed(State(), scope, workflowIds, stepIds);
      var todo := doomed;
      deleted := 0;
      assert before == before - (doomed - todo);
      while todo != {}
        invariant todo <= doomed && deleted + |todo| == |doomed|
        invariant client.entities == before - (doomed - todo) && client.heads == old(client.heads)
        decreases todo
      {
        var k :| k in todo;
        assert before - (doomed - todo) - {k} == before - (doomed - (todo - {k}));
        client.entities := client.entities - {k};
        deleted := deleted + 1;
        todo := todo - {k};
      }
      assert doomed - todo == doomed;
    }

    method ResetActiveHeads(stepIds: seq<string>)
      modifies client
      ensures State() == ResetHeads(old(State()), scope, stepIds)
    {
      for i := 0 to |stepIds|
        invariant State() == ResetHeads(old(State()), scope, stepIds[..i])
      {
        assert stepIds[..i + 1][..i] == stepIds[..i];
        SetActiveAttempt(stepIds[i], None);
      }
      assert stepIds[..|stepIds|] == stepIds;
    }
  }
}
