/** `ACPAdapter`: what each operation does to attempts, heads and the spend ledger.  The command runner is an
    oracle; its answer is a `Response`. */
module Acp {
  import opened Options
  import opened Json
  import opened Types
  import opened Core
  import opened Store
  import opened Engine
  import opened Spend
  import opened Reconcile

  datatype CommandStatus = CommandSucceeded | CommandFailed | TimedOut | ParseFailed | CommandAmbiguous

  /** `record` is what the answer parses to, if it parses; `ambiguous` is `external_outcome_ambiguous`. */
  datatype Response = Response(status: CommandStatus, ambiguous: bool, record: Option<JobRecord>)

  /** A paid operation: `create_job`, or one of the actions of `_paid_action`; `scope`, `workflowId` and `planId` are
      its plan's. */
  datatype Order = Order(
    action: Action,
    attemptId: string,
    scope: Scope,
    workflowId: string,
    stepId: string,
    signature: Signature,
    planId: Signature,
    approval: Approval,
    providerId: string,
    offeringId: string,
    offeringName: string,
    requirements: Signature,
    chainId: int,
    amount: Option<nat>,
    now: int)

  // ----- before the command ---------------------------------------------------------------

  /** The statuses that stop an operation: all active ones for a creation, fewer for the other actions, which
      continue an active job. */
  predicate Stops(action: Action, s: Status) {
    if action == CreateJob then ActiveStatus(s) else s == Submitting || s == Ambiguous || s == ReconciliationRequired
  }

  /** `_reject_duplicate_active_attempt` raises. */
  predicate Duplicate(c: Client, scope: Scope, o: Order) {
    match Head(c, scope, o.stepId)
    case None => false
    case Some(id) =>
      match GetAttempt(c, scope, id)
      case None => false
      case Some(a) => a.inputSignature == o.signature && Stops(o.action, a.status)
  }

  function SpendingOf(o: Order): Spending {
    Spending(o.approval, o.scope, o.planId, o.stepId, o.providerId, o.offeringId, o.chainId, ActionName(o.action),
      o.amount, o.approval.currency, ReservationId(Issue(o.attemptId, o.action)), o.now)
  }

  /** The approval that an order comes with is for its plan, step, action, provider, offering and chain, has not
      expired, and covers its amount, in all and for one job. */
  predicate OrderAllowed(o: Order) {
    var a := o.approval;
    && (a.scope, a.planId) == (o.scope, o.planId)
    && o.stepId in a.allowedSteps
    && (match o.action
        case CreateJob => "create_job" in a.actions
        case Fund => "fund" in a.actions
        case Complete => "complete" in a.actions
        case Reject => "reject" in a.actions)
    && (a.providerId, a.offeringId, a.chainId) == (o.providerId, o.offeringId, o.chainId)
    && o.now < a.expiresAt
    && o.amount.Some? && o.amount.value <= a.maxTotal
    && (a.maxPerJob.Some? ==> o.amount.value <= a.maxPerJob.value)
  }

  lemma OrdersSpendAsAllowed(ls: Ledgers, o: Order)
    ensures Reserve(ls, SpendingOf(o)).Some? <==> OrderAllowed(o) && HasRoom(ls, SpendingOf(o))
  {
    hide ReservationId, HasRoom, Reserve;
    AcceptedExactly(ls, SpendingOf(o));
  }

  /** The attempt that `_persist_intent` builds, from scratch: an earlier job identity is dropped. */
  function IntentOf(o: Order): Attempt {
    var creates := o.action == CreateJob;
    Attempt(o.attemptId, o.scope, o.workflowId, o.stepId, Submitting, o.signature, None, Some(o.chainId), None,
      Some(o.providerId), Some(o.offeringId),
      if creates then Some(o.offeringName) else None, if creates then Some(o.requirements) else None)
  }

  // ----- after the command ----------------------------------------------------------------

  /** `_create_response_matches_request`. */
  predicate AnswersOrder(r: JobRecord, o: Order) {
    && r.chainId == o.chainId
    && (r.providerId.Some? ==> SameIdentity(r.providerId.value, o.providerId))
    && (r.offeringId.Some? ==> r.offeringId.value == o.offeringId)
    && (r.offeringName.Some? ==> r.offeringName.value == o.offeringName)
  }

  predicate Unclear(r: Response) {
    r.ambiguous || r.status == TimedOut || r.status == ParseFailed || r.status == CommandAmbiguous
  }

  /** The status an answer gives the attempt. */
  function StatusAfter(o: Order, r: Response): Status {
    if o.action == CreateJob then
      if r.status == CommandSucceeded then
        if r.record.Some? && AnswersOrder(r.record.value, o) then Active else Ambiguous
      else if Unclear(r) then Ambiguous
      else Failed
    else if r.status == CommandFailed then Failed
    else if Unclear(r) then Ambiguous
    else Active
  }

  /** Only a created job contributes its identity. */
  function JobAfter(o: Order, r: Response): Option<JobRecord> {
    if o.action == CreateJob && StatusAfter(o, r) == Active then r.record else None
  }

  predicate Final(s: Status) {
    s == Failed || s == Succeeded || s == Rejected || s == Expired
  }

  /** The attempt as the outcome leaves it: the order's plan and step, and the job it created. */
  function Marked(a: Attempt, o: Order, r: Response): Attempt {
    var b := a.(scope := o.scope, workflowId := o.workflowId, stepId := o.stepId, status := StatusAfter(o, r));
    match JobAfter(o, r)
    case None => b
    case Some(job) => b.(jobId := Some(job.jobId), chainId := Some(job.chainId))
  }

  function HeadAfterMark(status: Status, attemptId: string): Option<string> {
    if Final(status) then None else Some(attemptId)
  }

  // ----- observations ---------------------------------------------------------------------

  predicate ProviderDisagrees(a: Attempt, r: JobRecord) {
    a.providerId.Some? && r.providerId.Some? && !SameIdentity(a.providerId.value, r.providerId.value)
  }

  /** The observation conflicts with the persisted identity. */
  predicate Mismatch(a: Attempt, r: JobRecord) {
    || (a.jobId.Some? && a.jobId.value != r.jobId)
    || (a.chainId.Some? && a.chainId.value != r.chainId)
    || ProviderDisagrees(a, r)
    || Disagree(a.offeringId, r.offeringId)
    || Disagree(a.offeringName, r.offeringName)
    || Disagree(a.requirements, r.requirements)
  }

  function ObservedStatus(a: Attempt, r: JobRecord, fixture: bool): Status {
    if r.fixture != fixture || Mismatch(a, r) then BlockedStatus
    else
      var state := Lower(r.lifecycle);
      if state == "completed" then ReconciliationRequired
      else if state == "rejected" then Rejected
      else if state == "expired" then Expired
      else Active
  }

  /** `x or y`. */
  function Or(x: Option<string>, y: Option<string>): Option<string> {
    if x.Some? && x.value != "" then x else y
  }

  /** `_persist_reconciliation`: also a rejected observation writes the record's job and chain. */
  function Observed(a: Attempt, r: JobRecord, fixture: bool): Attempt {
    a.(status := ObservedStatus(a, r, fixture), jobId := Some(r.jobId), chainId := Some(r.chainId),
       providerId := Or(a.providerId, r.providerId), offeringName := Or(a.offeringName, r.offeringName),
       requirements := if a.requirements.Some? then a.requirements else r.requirements)
  }

  function HeadAfterObservation(a: Attempt): Option<string> {
    if a.status == Succeeded || a.status == Rejected || a.status == Expired then None else Some(a.attemptId)
  }

  function ObservedIn(c: Client, a: Attempt): Client {
    SetHead(Put(c, AttemptRecord(a)), a.scope, a.stepId, HeadAfterObservation(a))
  }

  /** The attempt that `reconcile_attempt` observes: the one the head names, if it knows its job. */
  function Reconcilable(c: Client, scope: Scope, stepId: string): Option<Attempt> {
    match Head(c, scope, stepId)
    case None => None
    case Some(id) =>
      match GetAttempt(c, scope, id)
      case None => None
      case Some(a) => if a.jobId.Some? then Some(a) else None
  }

  // ----- finalization ---------------------------------------------------------------------

  /** What is verified outside: the bytes of the deliverable, the settlement receipt, and the artifact, if its
      resolution says that it is available. */
  datatype Proof = Proof(
    matches: bool,
    claimedHash: string,
    computedHash: string,
    chainId: int,
    transaction: string,
    artifact: Option<Artifact>)

  /** A call of `finalize_completed_work`; the deliverable and its hash are the record's. */
  datatype Closing = Closing(
    workflowId: string,
    stepId: string,
    implementationId: string,
    signature: Signature,
    attemptId: string,
    record: JobRecord,
    deliverable: Option<Value>,
    deliverableHash: Option<string>,
    proof: Proof,
    freshUntil: Option<int>,
    now: int)

  predicate Named(x: Option<string>) {
    x.Some? && x.value != ""
  }

  /** Some transaction of the job is the settlement's, if the job has any. */
  predicate Settles(p: Proof, r: JobRecord) {
    r.transactions == [] || exists i :: 0 <= i < |r.transactions| && Lower(r.transactions[i]) == Lower(p.transaction)
  }

  /** The job is completed for real, and the independent evidence supports it. */
  predicate Proves(f: Closing) {
    && !f.record.fixture && Lower(f.record.lifecycle) == "completed"
    && f.deliverable.Some? && Named(f.deliverableHash)
    && f.proof.matches
    && f.deliverableHash == Some(f.proof.claimedHash) && f.deliverableHash == Some(f.proof.computedHash)
    && f.proof.chainId == f.record.chainId && Settles(f.proof, f.record)
    && f.proof.artifact.Some? && f.proof.artifact.value.available
    && f.implementationId != ""
  }

  /** The attempt is the one whose verified completion is claimed. */
  predicate Closable(a: Attempt, scope: Scope, f: Closing) {
    && Proves(f)
    && a.scope == scope && a.workflowId == f.workflowId && a.stepId == f.stepId && a.inputSignature == f.signature
    && a.jobId == Some(f.record.jobId) && a.chainId == Some(f.record.chainId)
    && (a.status == Active || a.status == ReconciliationRequired)
    && Named(a.providerId) && Named(f.record.providerId) && SameIdentity(a.providerId.value, f.record.providerId.value)
    && !(Named(a.offeringId) && Named(f.record.offeringId) && a.offeringId != f.record.offeringId)
    && !(Named(a.offeringName) && Named(f.record.offeringName) && a.offeringName != f.record.offeringName)
    && ( || (Named(a.offeringId) && f.record.offeringId == a.offeringId)
         || (Named(a.offeringName) && f.record.offeringName == a.offeringName))
    && a.requirements.Some? && f.record.requirements == a.requirements
  }

  function ClosedAttempt(a: Attempt, f: Closing): Attempt {
    a.(status := Succeeded, providerId := f.record.providerId,
       offeringId := Or(a.offeringId, f.record.offeringId), offeringName := Or(a.offeringName, f.record.offeringName))
  }

  function ClosedWork(scope: Scope, f: Closing): WorkResult {
    var output := if f.deliverable.Some? then f.deliverable.value else Null;
    WorkResult(scope, f.workflowId, f.stepId, f.implementationId, f.signature, OutputSignature(output), output,
      f.now, f.freshUntil, Some(f.attemptId), f.proof.artifact, None)
  }

  function ClosedIn(c: Client, scope: Scope, a: Attempt, f: Closing): Client {
    Put(Put(c, Work(ClosedWork(scope, f))), AttemptRecord(ClosedAttempt(a, f)))
  }

  // ----- the adapter ----------------------------------------------------------------------

  /** Persist the intent and let the head name it. */
  function Intended(c: Client, o: Order): Client {
    SetHead(Put(c, AttemptRecord(IntentOf(o))), o.scope, o.stepId, Some(o.attemptId))
  }

  /** `_mark_attempt` on an attempt that is there. */
  function MarkedIn(c: Client, a: Attempt, o: Order, r: Response): Client {
    SetHead(Put(c, AttemptRecord(Marked(a, o, r))), o.scope, o.stepId,
      HeadAfterMark(StatusAfter(o, r), o.attemptId))
  }

  /** The client and the ledgers after a paid operation, and the status it recorded; `None` when it raised. */
  datatype Effect = Effect(client: Client, ledgers: Ledgers, status: Option<Status>)

  /** A paid operation whose command is answered by `r`, undisturbed.  A plan of another scope is refused by the store
      when the intent is saved; its amount is reserved by then. */
  function Performed(c: Client, ls: Ledgers, scope: Scope, o: Order, r: Response): Effect {
    if Duplicate(c, scope, o) then Effect(c, ls, None)
    else match Reserve(ls, SpendingOf(o))
      case None => Effect(c, ls, None)
      case Some(reserved) =>
        if o.scope != scope then Effect(c, reserved, None)
        else Effect(MarkedIn(Intended(c, o), IntentOf(o), o, r), reserved, Some(StatusAfter(o, r)))
  }

  class ACPAdapter {
    const store: SibylStore
    const ledger: ACPSpendLedger

    constructor (store: SibylStore, ledger: ACPSpendLedger)
      ensures this.store == store && this.ledger == ledger
    {
      this.store := store;
      this.ledger := ledger;
    }

    method RejectDuplicate(o: Order) returns (rejected: bool)
      ensures rejected == Duplicate(store.State(), store.scope, o)
    {
      var activeId := store.GetActiveAttempt(o.stepId);
      if activeId.None? {
        return false;
      }
      var active := store.GetExecutionAttempt(activeId.value);
      return active.Some? && active.value.inputSignature == o.signature && Stops(o.action, active.value.status);
    }

    method PersistIntent(o: Order) returns (persisted: bool)
      modifies store.client
      ensures persisted == (o.scope == store.scope)
      ensures store.State() == if persisted then Intended(old(store.State()), o) else old(store.State())
    {
      persisted := store.Save(AttemptRecord(IntentOf(o)));
      if persisted {
        store.SetActiveAttempt(o.stepId, Some(o.attemptId));
      }
    }

    /** Nothing happens when the attempt is missing or the plan's scope is foreign: the source raises. */
    method MarkAttempt(o: Order, r: Response)
      requires Consistent(store.State())
      modifies store.client
      ensures match GetAttempt(old(store.State()), store.scope, o.attemptId)
        case None => store.State() == old(store.State())
        case Some(a) =>
          store.State() == if o.scope == store.scope then MarkedIn(old(store.State()), a, o, r) else old(store.State())
    {
      var existing := store.GetExecutionAttempt(o.attemptId);
      if existing.None? {
        return;
      }
      var saved := store.Save(AttemptRecord(Marked(existing.value, o, r)));
      if saved {
        store.SetActiveAttempt(o.stepId, HeadAfterMark(StatusAfter(o, r), o.attemptId));
      }
    }

    /** `create_job` and the paid actions; `None` is an exception: nothing was sent, and nothing changed but, for a
        plan of another scope, its ledger. */
    method Perform(o: Order, r: Response) returns (status: Option<Status>)
      requires Consistent(store.State())
      modifies store.client, ledger
      ensures Effect(store.State(), ledger.ledgers, status)
        == Performed(old(store.State()), old(ledger.ledgers), store.scope, o, r)
    {
      var rejected := RejectDuplicate(o);
      if rejected {
        return None;
      }
      var reserved := ledger.ReserveSpend(SpendingOf(o));
      if !reserved {
        return None;
      }
      var persisted := PersistIntent(o);
      if !persisted {
        return None;
      }
      IntentIsThere(old(store.State()), o);
      MarkAttempt(o, r);
      return Some(StatusAfter(o, r));
    }

    /** `record_observation`; `None` when the attempt is missing. */
    method RecordObservation(attemptId: string, r: JobRecord, fixture: bool) returns (accepted: bool)
      requires Consistent(store.State())
      modifies store.client
      ensures match GetAttempt(old(store.State()), store.scope, attemptId)
        case None => !accepted && store.State() == old(store.State())
        case Some(a) =>
          && accepted == (r.fixture == fixture && !Mismatch(a, r))
          && store.State() == ObservedIn(old(store.State()), Observed(a, r, fixture))
    {
      var found := store.GetExecutionAttempt(attemptId);
      if found.None? {
        return false;
      }
      var a := found.value;
      assert a.scope == store.scope by {
        assert Fits(AttemptKey(store.scope, attemptId), store.State().entities[AttemptKey(store.scope, attemptId)]);
      }
      var updated := Observed(a, r, fixture);
      var saved := store.Save(AttemptRecord(updated));
      store.SetActiveAttempt(a.stepId, HeadAfterObservation(updated));
      return r.fixture == fixture && !Mismatch(a, r);
    }

    /** `reconcile_attempt`, with the provider's record for the attempt's job; `false` when it raises. */
    method ReconcileAttempt(stepId: string, r: JobRecord, fixture: bool) returns (accepted: bool)
      requires Consistent(store.State())
      modifies store.client
      ensures match Reconcilable(old(store.State()), store.scope, stepId)
        case None => !accepted && store.State() == old(store.State())
        case Some(a) =>
          && accepted == (r.fixture == fixture && !Mismatch(a, r))
          && store.State() == ObservedIn(old(store.State()), Observed(a, r, fixture))
    {
      var attemptId := store.GetActiveAttempt(stepId);
      if attemptId.None? {
        return false;
      }
      var found := store.GetExecutionAttempt(attemptId.value);
      if found.None? || found.value.jobId.None? {
        return false;
      }
      assert found.value.attemptId == attemptId.value by {
        var key := AttemptKey(store.scope, attemptId.value);
        assert Fits(key, store.State().entities[key]);
      }
      accepted := RecordObservation(found.value.attemptId, r, fixture);
    }

    method FinalizeCompletedWork(f: Closing) returns (done: bool)
      requires Consistent(store.State())
      modifies store.client
      ensures match GetAttempt(old(store.State()), store.scope, f.attemptId)
        case None => !done && store.State() == old(store.State())
        case Some(a) =>
          && done == Closable(a, store.scope, f)
          && store.State() ==
            if done then SetHead(ClosedIn(old(store.State()), store.scope, a, f), store.scope, f.stepId, None)
            else old(store.State())
    {
      var found := store.GetExecutionAttempt(f.attemptId);
      if found.None? || !Closable(found.value, store.scope, f) {
        return false;
      }
      var kept := store.Save(Work(ClosedWork(store.scope, f)));
      var saved := store.Save(AttemptRecord(ClosedAttempt(found.value, f)));
      store.SetActiveAttempt(f.stepId, None);
      return true;
    }
  }

  lemma IntentIsThere(c: Client, o: Order)
    requires Consistent(c)
    ensures Consistent(Intended(c, o))
    ensures GetAttempt(Intended(c, o), o.scope, o.attemptId) == Some(IntentOf(o))
  {
  }

  // ----- what a single operation guarantees -----------------------------------------------

  /** After an ambiguous answer the head names an attempt without a job identity -- the paid action dropped it, the
      failed creation never learned it -- and every further operation on the step under the same signature is refused,
      whatever its action, plan, approval or attempt id, and changes nothing. */
  lemma AmbiguityStopsTheStep(c: Client, ls: Ledgers, scope: Scope, o: Order, r: Response, next: Order, later: Response)
    requires Consistent(c) && Performed(c, ls, scope, o, r).status == Some(Ambiguous)
    requires next.stepId == o.stepId && next.signature == o.signature
    ensures var done := Performed(c, ls, scope, o, r);
      && Reconcilable(done.client, scope, o.stepId) == None
      && Performed(done.client, done.ledgers, scope, next, later) == Effect(done.client, done.ledgers, None)
  {
    hide Reserve, StatusAfter, SpendingOf;
    IntentIsThere(c, o);
  }
}
