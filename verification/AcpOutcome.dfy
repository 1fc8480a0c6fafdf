/** What a paid operation, an observation and a finalization come to, in terms of the answers and the evidence alone. */
module AcpOutcome {
  import opened Options
  import opened Json
  import opened Types
  import opened Core
  import opened Store
  import opened Engine
  import opened Spend
  import opened Reconcile
  import opened Acp
  import opened AcpProtocol
  import opened AcpInvariant
  import opened AcpLaws

  // ----- the answer of a command ----------------------------------------------------------

  /** The job in the answer is the one ordered: on its chain, and by its provider and under its offering where the
      answer names them. */
  predicate IsOrdered(o: Order, job: JobRecord) {
    && job.chainId == o.chainId
    && (job.providerId.Some? ==> SameIdentity(job.providerId.value, o.providerId))
    && (job.offeringId == None || job.offeringId == Some(o.offeringId))
    && (job.offeringName == None || job.offeringName == Some(o.offeringName))
  }

  /** A creation fails on a failed command that is not flagged ambiguous, a paid action on any failed command. */
  predicate Fails(o: Order, r: Response) {
    r.status == CommandFailed && (o.action == CreateJob ==> !r.ambiguous)
  }

  /** A creation is in force when the command succeeded and answers with the job ordered, a paid action when it
      succeeded unambiguously. */
  predicate TakesHold(o: Order, r: Response) {
    && r.status == CommandSucceeded
    && if o.action == CreateJob then r.record.Some? && IsOrdered(o, r.record.value) else !r.ambiguous
  }

  /** Everything else leaves open what happened: a command that timed out, was not understood or says so itself, a
      creation that is flagged ambiguous though it failed or that answers with another job or none, and a paid action
      that is flagged ambiguous though it succeeded. */
  predicate LeavesDoubt(o: Order, r: Response) {
    || r.status == TimedOut || r.status == ParseFailed || r.status == CommandAmbiguous
    || (o.action == CreateJob && r.status == CommandFailed && r.ambiguous)
    || (o.action == CreateJob && r.status == CommandSucceeded && (r.record.None? || !IsOrdered(o, r.record.value)))
    || (o.action != CreateJob && r.status == CommandSucceeded && r.ambiguous)
  }

  lemma AnswerDecides(o: Order, r: Response)
    ensures StatusAfter(o, r) == Failed <==> Fails(o, r)
    ensures StatusAfter(o, r) == Active <==> TakesHold(o, r)
    ensures StatusAfter(o, r) == Ambiguous <==> LeavesDoubt(o, r)
    ensures HeadAfterMark(StatusAfter(o, r), o.attemptId) == if Fails(o, r) then None else Some(o.attemptId)
  {
    hide SameIdentity;
  }

  /** What the attempt of a paid operation says in the end. */
  ghost predicate AttemptTells(a: Attempt, o: Order, r: Response) {
    && (a.attemptId, a.scope, a.workflowId, a.stepId) == (o.attemptId, o.scope, o.workflowId, o.stepId)
    && a.inputSignature == o.signature && a.errorCode == None
    && (a.status == Failed <==> Fails(o, r)) && (a.status == Active <==> TakesHold(o, r))
    && (a.status == Ambiguous <==> LeavesDoubt(o, r)) && a.status in {Failed, Active, Ambiguous}
    && (a.providerId, a.offeringId, a.chainId) == (Some(o.providerId), Some(o.offeringId), Some(o.chainId))
    && if o.action == CreateJob then
         && (a.offeringName, a.requirements) == (Some(o.offeringName), Some(o.requirements))
         && a.jobId == if TakesHold(o, r) then Some(r.record.value.jobId) else None
       else (a.offeringName, a.requirements, a.jobId) == (None, None, None)
  }

  lemma MarkedTells(o: Order, r: Response)
    ensures AttemptTells(Marked(IntentOf(o), o, r), o, r)
  {
    hide SameIdentity;
  }

  // ----- one operation --------------------------------------------------------------------

  /** The statuses under which an attempt stops the operation: a creation any that is not final, the other actions
      those of an outcome that is not known. */
  function StoppingStatuses(action: Action): set<Status> {
    if action == CreateJob then {Planned, Submitting, Active, AwaitingProvider, Ambiguous, ReconciliationRequired}
    else {Submitting, Ambiguous, ReconciliationRequired}
  }

  /** The step's head names an attempt of the same signature in such a status. */
  ghost predicate IsOwned(c: Client, scope: Scope, o: Order) {
    exists id, a :: Slot(scope, o.stepId) in c.heads && c.heads[Slot(scope, o.stepId)] == Some(id)
      && AttemptKey(scope, id) in c.entities && c.entities[AttemptKey(scope, id)] == AttemptRecord(a)
      && a.inputSignature == o.signature && a.status in StoppingStatuses(o.action)
  }

  lemma DuplicateExactly(c: Client, scope: Scope, o: Order)
    ensures Duplicate(c, scope, o) <==> IsOwned(c, scope, o)
  {
    if Duplicate(c, scope, o) {
      var id := Head(c, scope, o.stepId).value;
      assert c.entities[AttemptKey(scope, id)] == AttemptRecord(GetAttempt(c, scope, id).value);
    }
  }

  /** The operation leaves its attempt, telling the outcome, and the head naming it unless it failed; no other attempt,
      result or head is touched. */
  ghost predicate Concludes(c: Client, c': Client, o: Order, r: Response, status: Status) {
    var key := AttemptKey(o.scope, o.attemptId);
    && c'.entities.Keys == c.entities.Keys + {key}
    && (forall k :: k in c.entities && k != key ==> c'.entities[k] == c.entities[k])
    && c'.entities[key].AttemptRecord?
    && AttemptTells(c'.entities[key].attempt, o, r) && c'.entities[key].attempt.status == status
    && c'.heads == c.heads[Slot(o.scope, o.stepId) := if Fails(o, r) then None else Some(o.attemptId)]
  }

  lemma MarkingConcludes(c: Client, o: Order, r: Response)
    ensures Concludes(c, MarkedIn(Intended(c, o), IntentOf(o), o, r), o, r, StatusAfter(o, r))
  {
    hide StatusAfter, Marked, IntentOf, HeadAfterMark, AttemptTells, Fails;
    AnswerDecides(o, r);
    MarkedTells(o, r);
    MarkedNames(o, r);
  }

  /** A paid operation goes through exactly when nobody owns the step, the approval allows it, its ledger has room and
      the plan is the store's own; what it then leaves tells the outcome.  Refused, it changes nothing but, for a plan
      of another scope, that plan's ledger. */
  lemma PaidOperationEnds(c: Client, ls: Ledgers, scope: Scope, o: Order, r: Response)
    ensures var done := Performed(c, ls, scope, o, r);
      && (done.status.Some? <==>
          !IsOwned(c, scope, o) && OrderAllowed(o) && HasRoom(ls, SpendingOf(o)) && o.scope == scope)
      && (done.status.Some? ==> Concludes(c, done.client, o, r, done.status.value))
      && (done.status.None? ==> done.client == c)
      && done.ledgers == (if IsOwned(c, scope, o) then ls else Next(ls, SpendingOf(o)))
  {
    hide SpendingOf, StatusAfter, MarkedIn, Intended, Duplicate, IsOwned, OrderAllowed, HasRoom, Reserve, Concludes;
    DuplicateExactly(c, scope, o);
    OrdersSpendAsAllowed(ls, o);
    MarkingConcludes(c, o, r);
  }

  lemma MarkedNames(o: Order, r: Response)
    ensures KeyOf(AttemptRecord(IntentOf(o))) == AttemptKey(o.scope, o.attemptId)
    ensures KeyOf(AttemptRecord(Marked(IntentOf(o), o, r))) == AttemptKey(o.scope, o.attemptId)
    ensures Marked(IntentOf(o), o, r).status == StatusAfter(o, r)
  {
    hide StatusAfter;
  }

  /** After an answer that leaves doubt every further operation on the step under the same signature is refused and
      changes nothing, and there is nothing to reconcile. */
  lemma DoubtStopsTheStep(c: Client, ls: Ledgers, scope: Scope, o: Order, r: Response, next: Order, later: Response)
    requires Consistent(c) && Performed(c, ls, scope, o, r).status.Some? && LeavesDoubt(o, r)
    requires next.stepId == o.stepId && next.signature == o.signature
    ensures var done := Performed(c, ls, scope, o, r);
      && Reconcilable(done.client, scope, o.stepId) == None
      && Performed(done.client, done.ledgers, scope, next, later) == Effect(done.client, done.ledgers, None)
  {
    hide StatusAfter, LeavesDoubt, Reserve, Duplicate, MarkedIn, Intended, Reconcilable;
    AnswerDecides(o, r);
    AmbiguityStopsTheStep(c, ls, scope, o, r, next, later);
  }

  // ----- runs of the protocol -------------------------------------------------------------

  /** In every disciplined run, once a payment has marked its outcome, its attempt tells it, and the step's head names
      the attempt unless the command failed. */
  lemma OutcomesAreMarked(y: System, moves: seq<nat>, i: nat)
    requires Keeps(FULL, y, moves + [i]) && IsPay(y, i) && At(Interleave(y, moves), i).Releasing?
    ensures var s, o, r := Interleave(y, moves + [i]), y.duties[i].order, y.duties[i].response;
      && GetAttempt(s.client, y.scope, o.attemptId).Some?
      && AttemptTells(GetAttempt(s.client, y.scope, o.attemptId).value, o, r)
      && Head(s.client, y.scope, o.stepId) == if Fails(o, r) then None else Some(o.attemptId)
  {
    hide Invariant, Allowed, Disciplined, StatusAfter, Marked, IntentOf, HeadAfterMark, AttemptTells, Fails, Keeps;
    KeepsFront(y, moves, [i]);
    RunKeeps(y, moves);
    Fitting(y, Interleave(y, moves), i);
    var o, r := y.duties[i].order, y.duties[i].response;
    AnswerDecides(o, r);
    MarkedTells(o, r);
    assert (moves + [i])[..|moves|] == moves;
  }

  /** And once it has marked an answer that leaves doubt, no further command is ever sent for the step. */
  lemma DoubtIsFinal(y: System, moves: seq<nat>, i: nat, more: seq<nat>)
    requires Keeps(FULL, y, moves + [i] + more) && IsPay(y, i) && At(Interleave(y, moves), i).Releasing?
    requires LeavesDoubt(y.duties[i].order, y.duties[i].response)
    ensures StaysStuck(y, Interleave(y, moves + [i]), Interleave(y, moves + [i] + more), i)
  {
    hide Interleave, Keeps, StatusAfter, LeavesDoubt, StaysStuck;
    AnswerDecides(y.duties[i].order, y.duties[i].response);
    AmbiguityIsFinal(y, moves, i, more);
  }

  // ----- observations ---------------------------------------------------------------------

  /** The text is this word, in any mixture of cases. */
  predicate Reads(s: string, word: string) {
    && |s| == |word|
    && forall k :: 0 <= k < |s| ==> s[k] == word[k] || ('A' <= s[k] <= 'Z' && s[k] as int + 32 == word[k] as int)
  }

  lemma LowerReads(s: string, word: string)
    requires forall k :: 0 <= k < |word| ==> 'a' <= word[k] <= 'z'
    ensures Lower(s) == word <==> Reads(s, word)
  {
    if |s| == |word| {
      assert Lower(s) == word <==> forall k :: 0 <= k < |s| ==> Lower(s)[k] == word[k];
    }
  }

  /** The record is of the wrong kind, or contradicts the job, chain, provider, offering or requirements persisted. */
  predicate Contradicts(a: Attempt, r: JobRecord, fixture: bool) {
    || r.fixture != fixture
    || (a.jobId.Some? && r.jobId != a.jobId.value) || (a.chainId.Some? && r.chainId != a.chainId.value)
    || (a.providerId.Some? && r.providerId.Some? && !SameIdentity(a.providerId.value, r.providerId.value))
    || (a.offeringId.Some? && r.offeringId.Some? && r.offeringId.value != a.offeringId.value)
    || (a.offeringName.Some? && r.offeringName.Some? && r.offeringName.value != a.offeringName.value)
    || (a.requirements.Some? && r.requirements.Some? && r.requirements.value != a.requirements.value)
  }

  /** What an observation makes of the attempt: the record's job and chain, its provider, offering name and requirements
      where none were known, and the status that its lifecycle calls for. */
  ghost predicate ObservationTells(a: Attempt, b: Attempt, r: JobRecord, fixture: bool) {
    && (b.attemptId, b.scope, b.workflowId, b.stepId) == (a.attemptId, a.scope, a.workflowId, a.stepId)
    && (b.inputSignature, b.errorCode, b.offeringId) == (a.inputSignature, a.errorCode, a.offeringId)
    && (b.jobId, b.chainId) == (Some(r.jobId), Some(r.chainId))
    && b.providerId == (if a.providerId in {None, Some("")} then r.providerId else a.providerId)
    && b.offeringName == (if a.offeringName in {None, Some("")} then r.offeringName else a.offeringName)
    && b.requirements == (if a.requirements == None then r.requirements else a.requirements)
    && b.status ==
      if Contradicts(a, r, fixture) then BlockedStatus
      else if Reads(r.lifecycle, "completed") then ReconciliationRequired
      else if Reads(r.lifecycle, "rejected") then Rejected
      else if Reads(r.lifecycle, "expired") then Expired
      else Active
  }

  lemma ObservedTells(a: Attempt, r: JobRecord, fixture: bool)
    ensures ObservationTells(a, Observed(a, r, fixture), r, fixture)
  {
    hide Lower, SameIdentity, Reads;
    LowerReads(r.lifecycle, "completed");
    LowerReads(r.lifecycle, "rejected");
    LowerReads(r.lifecycle, "expired");
  }

  /** An observation rewrites its attempt and its step's head -- cleared by a rejected or expired job, else naming the
      attempt -- and nothing else. */
  lemma ObservationEnds(c: Client, a: Attempt, r: JobRecord, fixture: bool)
    ensures var c', key := ObservedIn(c, Observed(a, r, fixture)), AttemptKey(a.scope, a.attemptId);
      && c'.entities.Keys == c.entities.Keys + {key}
      && (forall k :: k in c.entities && k != key ==> c'.entities[k] == c.entities[k])
      && c'.entities[key].AttemptRecord?
      && var b := c'.entities[key].attempt;
      && ObservationTells(a, b, r, fixture)
      && c'.heads
        == c.heads[Slot(a.scope, a.stepId) := if b.status in {Rejected, Expired} then None else Some(a.attemptId)]
  {
    hide ObservedStatus, Contradicts, Reads;
    ObservedTells(a, r, fixture);
  }

  // ----- finalization ---------------------------------------------------------------------

  /** The job is a live one, completed, with a deliverable whose hash was claimed and recomputed; it was settled on its
      chain, by one of its transactions if it lists any; and the artifact is there. */
  predicate IsProven(f: Closing) {
    && !f.record.fixture && Reads(f.record.lifecycle, "completed")
    && f.deliverable.Some? && f.deliverableHash.Some? && f.deliverableHash.value != ""
    && f.proof.matches && f.proof.claimedHash == f.proof.computedHash == f.deliverableHash.value
    && f.proof.chainId == f.record.chainId
    && (f.record.transactions == [] || exists t :: t in f.record.transactions && Lower(t) == Lower(f.proof.transaction))
    && f.proof.artifact.Some? && f.proof.artifact.value.available && f.implementationId != ""
  }

  /** Both name the thing and not the same one; and: both name the same thing. */
  predicate Clash(x: Option<string>, y: Option<string>) {
    x.Some? && y.Some? && x.value != "" && y.value != "" && x.value != y.value
  }

  predicate Agree(x: Option<string>, y: Option<string>) {
    x.Some? && y.Some? && x.value != "" && x.value == y.value
  }

  /** The attempt is the job's: of this step and input, active or to be reconciled, on the same chain, by the same
      provider, under the same offering and for the same requirements. */
  predicate IsTheJobs(a: Attempt, scope: Scope, f: Closing) {
    && (a.scope, a.workflowId, a.stepId, a.inputSignature) == (scope, f.workflowId, f.stepId, f.signature)
    && (a.jobId, a.chainId) == (Some(f.record.jobId), Some(f.record.chainId))
    && a.status in {Active, ReconciliationRequired}
    && a.providerId.Some? && a.providerId.value != "" && f.record.providerId.Some? && f.record.providerId.value != ""
    && SameIdentity(a.providerId.value, f.record.providerId.value)
    && !Clash(a.offeringId, f.record.offeringId) && !Clash(a.offeringName, f.record.offeringName)
    && (Agree(a.offeringId, f.record.offeringId) || Agree(a.offeringName, f.record.offeringName))
    && a.requirements.Some? && f.record.requirements == a.requirements
  }

  lemma SettlesByOne(f: Closing)
    ensures Settles(f.proof, f.record) <==>
      f.record.transactions == [] || exists t :: t in f.record.transactions && Lower(t) == Lower(f.proof.transaction)
  {
    hide Lower;
  }

  /** What a finalized step's result is. */
  predicate WorkTells(w: WorkResult, scope: Scope, f: Closing) {
    && (w.scope, w.workflowId, w.stepId, w.implementationId, w.inputSignature)
      == (scope, f.workflowId, f.stepId, f.implementationId, f.signature)
    && Some(w.output) == f.deliverable && w.outputSignature == OutputSignature(w.output)
    && (w.completedAt, w.freshUntil, w.attemptId) == (f.now, f.freshUntil, Some(f.attemptId))
    && w.artifact == f.proof.artifact && w.provenance == None
  }

  /** Work is finalized exactly on proof and for the job's own attempt. */
  lemma FinalizesExactly(a: Attempt, scope: Scope, f: Closing)
    ensures Closable(a, scope, f) <==> IsProven(f) && IsTheJobs(a, scope, f)
  {
    hide Lower, SameIdentity, Reads, Settles;
    LowerReads(f.record.lifecycle, "completed");
    SettlesByOne(f);
  }

  /** Then the deliverable is kept as the step's work, the attempt has succeeded, the head is clear, and nothing else
      has changed. */
  lemma FinalizationEnds(c: Client, scope: Scope, a: Attempt, f: Closing)
    requires Closable(a, scope, f) && a.attemptId == f.attemptId
    ensures var c' := SetHead(ClosedIn(c, scope, a, f), scope, f.stepId, None);
      var work, key := WorkKey(scope, f.workflowId, f.stepId, f.signature), AttemptKey(scope, f.attemptId);
      && c'.entities.Keys == c.entities.Keys + {work, key}
      && (forall k :: k in c.entities && k != work && k != key ==> c'.entities[k] == c.entities[k])
      && c'.entities[work].Work? && WorkTells(c'.entities[work].result, scope, f)
      && c'.entities[key].AttemptRecord?
      && var b := c'.entities[key].attempt;
      && b == a.(status := Succeeded, providerId := f.record.providerId, offeringId := b.offeringId,
           offeringName := b.offeringName)
      && b.offeringId == (if a.offeringId in {None, Some("")} then f.record.offeringId else a.offeringId)
      && b.offeringName == (if a.offeringName in {None, Some("")} then f.record.offeringName else a.offeringName)
      && c'.heads == c.heads[Slot(scope, f.stepId) := None]
  {
    hide Lower, SameIdentity, Settles;
  }
}
