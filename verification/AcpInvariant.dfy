/** What every move of a disciplined schedule keeps: who holds the lock, who is busy on a step, and what each thread in
    the middle of its operation may still rely on. */
module AcpInvariant {
  import opened Options
  import opened Json
  import opened Types
  import opened Core
  import opened Store
  import opened Engine
  import opened Spend
  import opened Reconcile
  import opened Acp
  import opened AcpProtocol

  // ----- the invariant --------------------------------------------------------------------

  /** The payment holds the lock. */
  predicate Locking(p: Phase) {
    p.Checking? || p == Checked || p == Booked || p == Intending
  }

  /** The payment has reserved and has not finished. */
  predicate Paying(y: System, s: State, i: nat) {
    IsPay(y, i) && var p := At(s, i);
    p == Booked || p == Intending || p == Persisted || p == InFlight || p.Marking? || p.Releasing?
  }

  /** The payment has passed its check and has not finished. */
  predicate Busy(y: System, s: State, i: nat) {
    Paying(y, s, i) || (IsPay(y, i) && At(s, i) == Checked)
  }

  /** The payment relies on its intent in the store. */
  predicate Holding(y: System, s: State, i: nat) {
    IsPay(y, i) && var p := At(s, i);
    p == Intending || p == Persisted || p == InFlight || p.Marking?
  }

  function StepOf(y: System, i: nat): string
    requires i in y.duties
  {
    match y.duties[i]
    case Pay(order, _) => order.stepId
    case Reconcile(stepId, _, _) => stepId
    case Finalize(closing) => closing.stepId
    case Observe(_, _, _) => ""
  }

  ghost predicate LockFits(y: System, s: State) {
    forall i: nat ::
      && (s.lock == Some(i) ==> IsPay(y, i) && Locking(At(s, i)))
      && (IsPay(y, i) && Locking(At(s, i)) ==> s.lock == Some(i))
  }

  /** One payment per step between its check and its end. */
  ghost predicate Alone(y: System, s: State) {
    forall i, j :: Busy(y, s, i) && Busy(y, s, j) && StepOf(y, i) == StepOf(y, j) ==> i == j
  }

  /** A payment that is checking an attempt has read the id of whoever is busy on its step. */
  ghost predicate Warned(y: System, s: State) {
    forall i, j :: IsPay(y, i) && At(s, i).Checking? && Busy(y, s, j) && StepOf(y, i) == StepOf(y, j) ==>
      y.duties[j].order.attemptId == At(s, i).attemptId
  }

  ghost predicate Covered(ls: Ledgers, o: Order) {
    var spending := SpendingOf(o);
    Reserved(Body(ls, spending).entries, spending.reservationId) && Owns(Body(ls, spending), o.scope, o.planId)
  }

  ghost predicate AllCovered(y: System, s: State) {
    forall i :: Paying(y, s, i) ==> Covered(s.ledgers, y.duties[i].order)
  }

  /** Some payment on this step uses this attempt id. */
  ghost predicate UsedOn(y: System, id: string, stepId: string) {
    exists j :: IsPay(y, j) && y.duties[j].order.attemptId == id && StepOf(y, j) == stepId
  }

  ghost predicate Signs(y: System, stepId: string, signature: Signature) {
    exists j :: IsPay(y, j) && StepOf(y, j) == stepId && y.duties[j].order.signature == signature
  }

  /** An attempt belongs to a payment's step and signature; before its outcome is known it knows no job. */
  ghost predicate AttemptFits(y: System, id: string, a: Attempt) {
    && a.attemptId == id && a.scope == y.scope
    && UsedOn(y, id, a.stepId) && Signs(y, a.stepId, a.inputSignature)
    && (a.status == Submitting || a.status == Ambiguous ==> a.jobId == None)
  }

  ghost predicate AttemptsFit(y: System, c: Client) {
    forall id :: GetAttempt(c, y.scope, id).Some? ==> AttemptFits(y, id, GetAttempt(c, y.scope, id).value)
  }

  /** The head of the step names this attempt of the step. */
  ghost predicate Names(y: System, c: Client, stepId: string, id: string, a: Attempt) {
    Head(c, y.scope, stepId) == Some(id) && GetAttempt(c, y.scope, id) == Some(a) && a.stepId == stepId
  }

  ghost predicate Owned(y: System, c: Client, o: Order) {
    o.scope == y.scope && Names(y, c, o.stepId, o.attemptId, IntentOf(o))
  }

  /** What a payment knows of the store. */
  ghost predicate PayFits(y: System, c: Client, p: Phase, o: Order, r: Response) {
    match p
    case Intending => o.scope == y.scope && GetAttempt(c, y.scope, o.attemptId) == Some(IntentOf(o))
    case Persisted => Owned(y, c, o)
    case InFlight => Owned(y, c, o)
    case Marking(a) => Owned(y, c, o) && a == IntentOf(o)
    case Releasing(stepId, head) =>
      && o.scope == y.scope && stepId == o.stepId && head == HeadAfterMark(StatusAfter(o, r), o.attemptId)
      && Names(y, c, stepId, o.attemptId, Marked(IntentOf(o), o, r))
    case _ => p.Ready? || p.Ended? || p.Checking? || p == Checked || p == Booked
  }

  /** An observation or finalization about to write the head has its attempt, which knows its job, under it. */
  ghost predicate ReleaseFits(y: System, c: Client, stepId: string, head: Option<string>) {
    && Head(c, y.scope, stepId).Some?
    && var a := GetAttempt(c, y.scope, Head(c, y.scope, stepId).value);
    && a.Some? && a.value.stepId == stepId && a.value.jobId.Some?
    && (head == None || (head == Head(c, y.scope, stepId) && !Final(a.value.status)))
  }

  ghost predicate ReconcileFits(y: System, c: Client, p: Phase, step: string) {
    match p
    case Looking(id) => Head(c, y.scope, step) == Some(id)
    case Looked(id) =>
      && Head(c, y.scope, step) == Some(id)
      && GetAttempt(c, y.scope, id).Some? && GetAttempt(c, y.scope, id).value.jobId.Some?
      && GetAttempt(c, y.scope, id).value.stepId == step
    case Observing(a) => Names(y, c, step, a.attemptId, a) && a.jobId.Some?
    case Releasing(stepId, head) => stepId == step && ReleaseFits(y, c, step, head)
    case _ => p.Ready? || p.Ended?
  }

  ghost predicate FinalizeFits(y: System, c: Client, p: Phase, f: Closing) {
    match p
    case Closing(a) => Names(y, c, f.stepId, f.attemptId, a) && Closable(a, y.scope, f)
    case Kept(a) => Names(y, c, f.stepId, f.attemptId, a) && Closable(a, y.scope, f)
    case Releasing(stepId, head) => stepId == f.stepId && ReleaseFits(y, c, stepId, head)
    case _ => p.Ready? || p.Ended?
  }

  ghost predicate LocalFits(y: System, s: State, i: nat)
    requires i in y.duties
  {
    match y.duties[i]
    case Pay(o, r) => PayFits(y, s.client, At(s, i), o, r)
    case Reconcile(stepId, _, _) => ReconcileFits(y, s.client, At(s, i), stepId)
    case Finalize(f) => FinalizeFits(y, s.client, At(s, i), f)
    case Observe(_, _, _) => At(s, i).Ready?
  }

  ghost predicate AllFit(y: System, s: State) {
    forall i :: i in y.duties ==> LocalFits(y, s, i)
  }

  /** Where payments stand towards each other. */
  ghost predicate Queued(y: System, s: State) {
    LockFits(y, s) && Alone(y, s) && Warned(y, s) && AllCovered(y, s)
  }

  ghost predicate Invariant(y: System, s: State) {
    Queued(y, s) && AllFit(y, s) && AttemptsFit(y, s.client) && HeadsAreOpen(y, s)
  }

  lemma InvariantIsSafe(y: System, s: State)
    requires Invariant(y, s)
    ensures Safe(y, s)
  {
    hide GetAttempt, Head, IntentOf, Body, Reserved, SpendingOf, AttemptsFit, HeadsAreOpen, LockFits, Warned;
    forall i, j, stepId | Sending(y, s, i, stepId) && Sending(y, s, j, stepId) ensures i == j {
      assert Busy(y, s, i) && Busy(y, s, j);
    }
    forall i | IsPay(y, i) && (At(s, i) == Persisted || At(s, i) == InFlight)
      ensures Backed(y, s, y.duties[i].order)
    {
      assert Paying(y, s, i) && LocalFits(y, s, i);
      assert Covered(s.ledgers, y.duties[i].order);
    }
  }

  // ----- what a move leaves alone ---------------------------------------------------------

  /** A write on one step: only its head and attempts used on it change. */
  ghost predicate Touches(y: System, c: Client, c': Client, stepId: string) {
    && (forall other :: other != stepId ==> Head(c', y.scope, other) == Head(c, y.scope, other))
    && (forall id :: GetAttempt(c', y.scope, id) != GetAttempt(c, y.scope, id) ==> UsedOn(y, id, stepId))
  }

  lemma UsedOnOneStep(y: System, id: string, stepId: string, other: string)
    requires OwnedIds(y) && UsedOn(y, id, stepId) && UsedOn(y, id, other)
    ensures stepId == other
  {
  }

  lemma SignedOnce(y: System, stepId: string, a: Signature, b: Signature)
    requires OneSignature(y) && Signs(y, stepId, a) && Signs(y, stepId, b)
    ensures a == b
  {
  }

  /** An attempt of another step is as it was. */
  lemma OtherAttemptStays(y: System, c: Client, c': Client, stepId: string, id: string)
    requires OwnedIds(y) && Touches(y, c, c', stepId) && AttemptsFit(y, c)
    requires GetAttempt(c, y.scope, id).Some? && GetAttempt(c, y.scope, id).value.stepId != stepId
    ensures GetAttempt(c', y.scope, id) == GetAttempt(c, y.scope, id)
  {
    hide UsedOn, GetAttempt, Head, Signs;
    var a := GetAttempt(c, y.scope, id).value;
    assert AttemptFits(y, id, a);
    if GetAttempt(c', y.scope, id) != GetAttempt(c, y.scope, id) {
      UsedOnOneStep(y, id, stepId, a.stepId);
    }
  }

  /** A thread on another step still knows what it knew. */
  lemma OtherStepFits(y: System, s: State, s': State, j: nat, stepId: string)
    requires Full(y) && AttemptsFit(y, s.client) && j in y.duties && StepOf(y, j) != stepId && LocalFits(y, s, j)
    requires Touches(y, s.client, s'.client, stepId) && At(s', j) == At(s, j)
    ensures LocalFits(y, s', j)
  {
    hide GetAttempt, Head, AttemptsFit, IntentOf, Marked, Closable, Disciplined, StatusAfter, UsedOn, OwnedIds;
    var c, step := s.client, StepOf(y, j);
    FullHabits(y);
    assert Head(s'.client, y.scope, step) == Head(c, y.scope, step) by { HeadStays(y, c, s'.client, stepId, step); }
    match y.duties[j] {
      case Pay(o, _) =>
        if GetAttempt(c, y.scope, o.attemptId).Some? {
          IntentStep(o, GetAttempt(c, y.scope, o.attemptId).value, y.duties[j].response);
          if GetAttempt(c, y.scope, o.attemptId).value.stepId == step {
            OtherAttemptStays(y, c, s'.client, stepId, o.attemptId);
          }
        }
      case Reconcile(_, _, _) => HeadAttemptStays(y, c, s'.client, stepId, step);
      case Finalize(_) => HeadAttemptStays(y, c, s'.client, stepId, step);
      case Observe(_, _, _) =>
    }
  }

  lemma HeadAttemptStays(y: System, c: Client, c': Client, stepId: string, step: string)
    requires OwnedIds(y) && Touches(y, c, c', stepId) && AttemptsFit(y, c) && step != stepId
    ensures Head(c, y.scope, step).Some? ==>
      var id := Head(c, y.scope, step).value;
      var a := GetAttempt(c, y.scope, id);
      a.Some? && a.value.stepId == step ==> GetAttempt(c', y.scope, id) == a
  {
    hide GetAttempt, Head, AttemptsFit;
    if Head(c, y.scope, step).Some? {
      var id := Head(c, y.scope, step).value;
      if GetAttempt(c, y.scope, id).Some? && GetAttempt(c, y.scope, id).value.stepId == step {
        OtherAttemptStays(y, c, c', stepId, id);
      }
    }
  }

  lemma HeadStays(y: System, c: Client, c': Client, stepId: string, other: string)
    requires Touches(y, c, c', stepId) && other != stepId
    ensures Head(c', y.scope, other) == Head(c, y.scope, other)
  {
  }

  lemma IntentStep(o: Order, a: Attempt, r: Response)
    ensures a == IntentOf(o) || a == Marked(IntentOf(o), o, r) ==> a.stepId == o.stepId
  {
  }

  ghost predicate Full(y: System) {
    Disciplined(FULL, y)
  }

  lemma FullHabits(y: System)
    requires Full(y)
    ensures OneSignature(y) && OwnedIds(y) && ThroughHead(y)
  {
  }

  // ----- one move, assembled --------------------------------------------------------------

  /** Nobody else is inside a section on the thread's step. */
  ghost predicate Undisturbed(y: System, s: State, i: nat)
    requires i in y.duties
  {
    forall j :: j in y.duties && j != i && StepOf(y, j) == StepOf(y, i) ==> !Inside(FULL, y, s, j)
  }

  lemma AllowedIsUndisturbed(y: System, s: State, i: nat)
    requires Full(y) && i in y.duties && Allowed(FULL, y, s, i) && Move(y, s, i) != s
    ensures Undisturbed(y, s, i)
  {
    hide Move, Inside, OneSignature, OwnedIds, BeginsAtHead;
    forall j | j in y.duties && j != i && StepOf(y, j) == StepOf(y, i) ensures !Inside(FULL, y, s, j) {
      assert StepAt(y, s, j) == Some(StepOf(y, j)) && StepAt(y, s, i) == Some(StepOf(y, i));
      assert Inside(FULL, y, s, j) ==> Intrudes(FULL, y, s, i);
    }
  }

  /** Other payments on the step that rely on their intent still have it. */
  ghost predicate HoldersFit(y: System, s: State, s': State, i: nat)
    requires i in y.duties
  {
    forall j :: Holding(y, s, j) && j != i && StepOf(y, j) == StepOf(y, i) ==> LocalFits(y, s', j)
  }

  lemma SameStepFits(y: System, s: State, s': State, i: nat, j: nat)
    requires Full(y) && i in y.duties && j in y.duties && i != j && StepOf(y, j) == StepOf(y, i)
    requires Undisturbed(y, s, i) && LocalFits(y, s, j) && !Holding(y, s, j) && At(s', j) == At(s, j)
    ensures LocalFits(y, s', j)
  {
    hide GetAttempt, Head, ReleaseFits, Names, Owned, Closable, IntentOf, Marked, Disciplined;
    assert !Inside(FULL, y, s, j);
  }

  lemma AllStillFit(y: System, s: State, s': State, i: nat)
    requires Full(y) && i in y.duties && Invariant(y, s) && Undisturbed(y, s, i)
    requires forall j: nat :: j != i ==> At(s', j) == At(s, j)
    requires Touches(y, s.client, s'.client, StepOf(y, i)) && HoldersFit(y, s, s', i) && LocalFits(y, s', i)
    ensures AllFit(y, s')
  {
    hide Touches, LocalFits, Holding, Undisturbed, Full, Alone, Warned, AllCovered, LockFits, HeadsAreOpen, AttemptsFit;
    forall j | j in y.duties ensures LocalFits(y, s', j) {
      assert LocalFits(y, s, j);
      if j != i {
        if StepOf(y, j) != StepOf(y, i) {
          OtherStepFits(y, s, s', j, StepOf(y, i));
        } else if !Holding(y, s, j) {
          SameStepFits(y, s, s', i, j);
        }
      }
    }
  }

  /** The thread about to write a head works on that head's step. */
  lemma ReleasesOwnStep(y: System, s: State, i: nat)
    requires i in y.duties && LocalFits(y, s, i) && At(s, i).Releasing?
    ensures At(s, i).stepId == StepOf(y, i)
  {
    hide ReleaseFits, Names, IntentOf, Marked, StatusAfter;
  }

  lemma HeadsStayOpen(y: System, s: State, s': State, i: nat)
    requires Full(y) && i in y.duties && Invariant(y, s)
    requires forall j: nat :: j != i ==> At(s', j) == At(s, j)
    requires Touches(y, s.client, s'.client, StepOf(y, i))
    requires Head(s'.client, y.scope, StepOf(y, i)).Some? ==> OpenHead(y, s', StepOf(y, i))
    ensures HeadsAreOpen(y, s')
  {
    hide GetAttempt, Head, Touches, LocalFits, Disciplined, Alone, Warned, AllCovered, LockFits, AttemptsFit;
    var x := StepOf(y, i);
    FullHabits(y);
    forall stepId | Head(s'.client, y.scope, stepId).Some? ensures OpenHead(y, s', stepId) {
      if stepId != x {
        HeadStays(y, s.client, s'.client, x, stepId);
        HeadAttemptStays(y, s.client, s'.client, x, stepId);
        assert OpenHead(y, s, stepId);
        if Clearing(y, s, stepId) {
          var k :| k in y.duties && At(s, k) == Releasing(stepId, None);
          assert LocalFits(y, s, k);
          ReleasesOwnStep(y, s, k);
          assert At(s', k) == Releasing(stepId, None);
        }
      }
    }
  }

  lemma Assembled(y: System, s: State, s': State, i: nat)
    requires Full(y) && i in y.duties && Invariant(y, s) && Undisturbed(y, s, i)
    requires forall j: nat :: j != i ==> At(s', j) == At(s, j)
    requires Touches(y, s.client, s'.client, StepOf(y, i)) && HoldersFit(y, s, s', i) && LocalFits(y, s', i)
    requires Head(s'.client, y.scope, StepOf(y, i)).Some? ==> OpenHead(y, s', StepOf(y, i))
    requires Queued(y, s') && AttemptsFit(y, s'.client)
    ensures Invariant(y, s')
  {
    hide Touches, HoldersFit, LocalFits, OpenHead, AttemptsFit, AllFit, HeadsAreOpen, Undisturbed, Full, Alone, Warned;
    hide AllCovered, LockFits;
    assert HeadsAreOpen(y, s') by { hide Invariant; HeadsStayOpen(y, s, s', i); }
    assert AllFit(y, s') by { hide Invariant; AllStillFit(y, s, s', i); }
  }

  /** A thread that neither enters the lock nor becomes busy leaves the order of payments as it is. */
  lemma StaysQueued(y: System, s: State, s': State, i: nat)
    requires Queued(y, s) && LockFits(y, s') && !At(s', i).Checking?
    requires forall j: nat :: j != i ==> At(s', j) == At(s, j)
    requires Busy(y, s', i) ==> Busy(y, s, i)
    requires Paying(y, s', i) ==> Paying(y, s, i)
    requires s'.ledgers == s.ledgers
    ensures Queued(y, s')
  {
    hide Covered, LockFits;
    forall j ensures Busy(y, s', j) ==> Busy(y, s, j) {
      if j != i { assert At(s', j) == At(s, j); }
    }
    forall j ensures Paying(y, s', j) ==> Paying(y, s, j) {
      if j != i { assert At(s', j) == At(s, j); }
    }
  }

  /** The lock changes hands only with the phase of its holder. */
  lemma LockStays(y: System, s: State, s': State, i: nat)
    requires LockFits(y, s) && forall j: nat :: j != i ==> At(s', j) == At(s, j)
    requires s'.lock ==
      if IsPay(y, i) && Locking(At(s', i)) then Some(i) else if s.lock == Some(i) then None else s.lock
    requires IsPay(y, i) && Locking(At(s', i)) ==> s.lock == None || s.lock == Some(i)
    ensures LockFits(y, s')
  {
  }

  // ----- reads ----------------------------------------------------------------------------

  /** The stores read alike, as far as attempts and heads go. */
  ghost predicate ReadsAlike(y: System, c: Client, c': Client) {
    && (forall id :: GetAttempt(c', y.scope, id) == GetAttempt(c, y.scope, id))
    && (forall step :: Head(c', y.scope, step) == Head(c, y.scope, step))
  }

  /** A move that writes no attempt and no head and makes nobody busy keeps the invariant. */
  lemma ReadKeeps(y: System, s: State, s': State, i: nat)
    requires Full(y) && i in y.duties && Invariant(y, s) && Undisturbed(y, s, i)
    requires s'.client == s.client || ReadsAlike(y, s.client, s'.client)
    requires forall j: nat :: j != i ==> At(s', j) == At(s, j)
    requires LocalFits(y, s', i) && Queued(y, s') && !At(s, i).Releasing?
    ensures Invariant(y, s')
  {
    hide LocalFits, Undisturbed, Full, Queued, GetAttempt, Head, Holding, AttemptFits, UsedOn;
    assert HoldersFit(y, s, s', i) by { ReadersFit(y, s, s', i); }
    if Head(s'.client, y.scope, StepOf(y, i)).Some? {
      StaysOpen(y, s, s', i, StepOf(y, i));
    }
    Assembled(y, s, s', i);
  }

  lemma ReadersFit(y: System, s: State, s': State, i: nat)
    requires i in y.duties && AllFit(y, s) && forall j: nat :: j != i ==> At(s', j) == At(s, j)
    requires s'.client == s.client || ReadsAlike(y, s.client, s'.client)
    ensures HoldersFit(y, s, s', i)
  {
    hide GetAttempt, Head, IntentOf, Marked;
    forall j | Holding(y, s, j) && j != i && StepOf(y, j) == StepOf(y, i) ensures LocalFits(y, s', j) {
      assert LocalFits(y, s, j) && At(s', j) == At(s, j);
    }
  }

  /** A head stays open as long as its attempt does and nobody releases it. */
  lemma StaysOpen(y: System, s: State, s': State, i: nat, stepId: string)
    requires HeadsAreOpen(y, s) && Head(s.client, y.scope, stepId).Some?
    requires s'.client == s.client || ReadsAlike(y, s.client, s'.client)
    requires !At(s, i).Releasing? && forall j: nat :: j != i ==> At(s', j) == At(s, j)
    ensures Head(s'.client, y.scope, stepId).Some? && OpenHead(y, s', stepId)
  {
    hide GetAttempt, Head;
    assert OpenHead(y, s, stepId);
    if Clearing(y, s, stepId) {
      var k :| k in y.duties && At(s, k) == Releasing(stepId, None);
      assert At(s', k) == Releasing(stepId, None);
    }
  }

  // ----- writes ---------------------------------------------------------------------------

  lemma SaveReads(y: System, c: Client, a: Attempt)
    requires a.scope == y.scope
    ensures var c' := Put(c, AttemptRecord(a));
      && (forall id :: GetAttempt(c', y.scope, id) == if id == a.attemptId then Some(a) else GetAttempt(c, y.scope, id))
      && (forall step :: Head(c', y.scope, step) == Head(c, y.scope, step))
  {
  }

  lemma SetReads(y: System, c: Client, stepId: string, head: Option<string>)
    ensures var c' := SetHead(c, y.scope, stepId, head);
      && (forall id :: GetAttempt(c', y.scope, id) == GetAttempt(c, y.scope, id))
      && (forall step :: Head(c', y.scope, step) == if step == stepId then head else Head(c, y.scope, step))
  {
  }

  lemma WorkReads(y: System, c: Client, r: WorkResult)
    ensures var c' := Put(c, Work(r));
      && (forall id :: GetAttempt(c', y.scope, id) == GetAttempt(c, y.scope, id))
      && (forall step :: Head(c', y.scope, step) == Head(c, y.scope, step))
  {
  }

  /** Saving an attempt of the step. */
  lemma SaveKeepsFit(y: System, c: Client, a: Attempt)
    requires AttemptsFit(y, c) && AttemptFits(y, a.attemptId, a)
    ensures AttemptsFit(y, Put(c, AttemptRecord(a))) && Touches(y, c, Put(c, AttemptRecord(a)), a.stepId)
  {
    hide UsedOn, Signs, GetAttempt, Head, Put;
    SaveReads(y, c, a);
  }

  /** Setting the head of the step. */
  lemma SetKeepsFit(y: System, c: Client, stepId: string, head: Option<string>)
    requires AttemptsFit(y, c)
    ensures AttemptsFit(y, SetHead(c, y.scope, stepId, head))
    ensures Touches(y, c, SetHead(c, y.scope, stepId, head), stepId)
  {
    hide AttemptFits, UsedOn, GetAttempt, Head, SetHead;
    SetReads(y, c, stepId, head);
  }

  lemma OwnAttemptFits(y: System, i: nat, a: Attempt)
    requires IsPay(y, i)
    requires var o := y.duties[i].order;
      a.attemptId == o.attemptId && a.scope == y.scope && a.stepId == o.stepId && a.inputSignature == o.signature
    requires a.status == Submitting || a.status == Ambiguous ==> a.jobId == None
    ensures AttemptFits(y, a.attemptId, a)
  {
  }

  // ----- payments: the check --------------------------------------------------------------

  lemma Fitting(y: System, s: State, i: nat)
    requires Invariant(y, s) && i in y.duties
    ensures LocalFits(y, s, i)
  {
    hide LocalFits, LockFits, Alone, Warned, AllCovered, AttemptsFit, HeadsAreOpen;
  }

  /** While nobody else holds the lock and the step is undisturbed, whoever is busy on it owns its head. */
  lemma BusyOwns(y: System, s: State, i: nat, j: nat)
    requires Invariant(y, s) && IsPay(y, i) && Undisturbed(y, s, i) && (s.lock == None || s.lock == Some(i))
    requires Busy(y, s, j) && i != j && StepOf(y, i) == StepOf(y, j)
    ensures Owned(y, s.client, y.duties[j].order)
  {
    hide Owned, Names, AllCovered, AttemptsFit, HeadsAreOpen, IntentOf, Marked, AllFit;
    Fitting(y, s, j);
    assert !Inside(FULL, y, s, j);
  }

  lemma SubmittingStops(action: Action)
    ensures Stops(action, Submitting)
  {
  }

  /** A check does not pass while another payment is busy on the step. */
  lemma CheckedAlone(y: System, s: State, i: nat, j: nat)
    requires Full(y) && Invariant(y, s) && IsPay(y, i) && Undisturbed(y, s, i)
    requires (At(s, i) == Ready && s.lock == None) || At(s, i).Checking?
    requires Busy(y, s, j) && i != j && StepOf(y, i) == StepOf(y, j)
    ensures At(Move(y, s, i), i) != Checked
  {
    hide AllCovered, AttemptsFit, HeadsAreOpen, AllFit, Undisturbed, GetAttempt, Head, Stops;
    BusyOwns(y, s, i, j);
    SubmittingStops(y.duties[i].order.action);
    assert OneSignature(y);
    assert y.duties[j].order.signature == y.duties[i].order.signature;
  }

  lemma NobodyChecked(y: System, s: State, i: nat)
    requires Full(y) && Invariant(y, s) && IsPay(y, i) && Undisturbed(y, s, i)
    requires (At(s, i) == Ready && s.lock == None) || At(s, i).Checking?
    requires At(Move(y, s, i), i) == Checked
    ensures forall j :: Busy(y, s, j) && i != j ==> StepOf(y, i) != StepOf(y, j)
  {
    hide Move, Invariant, Full, Undisturbed;
    forall j | Busy(y, s, j) && i != j ensures StepOf(y, i) != StepOf(y, j) {
      if StepOf(y, i) == StepOf(y, j) { CheckedAlone(y, s, i, j); }
    }
  }

  /** The order of payments when one takes the lock to check its step, or passes its check. */
  lemma CheckingQueued(y: System, s: State, s': State, i: nat)
    requires Queued(y, s) && LockFits(y, s') && IsPay(y, i) && s'.lock == Some(i) && s'.ledgers == s.ledgers
    requires forall j: nat :: j != i ==> At(s', j) == At(s, j)
    requires At(s', i) == Checked ==> forall j :: Busy(y, s, j) && i != j ==> StepOf(y, i) != StepOf(y, j)
    requires At(s', i).Checking? ==> forall j :: Busy(y, s, j) && i != j && StepOf(y, i) == StepOf(y, j) ==>
      y.duties[j].order.attemptId == At(s', i).attemptId
    requires At(s', i) == Checked || At(s', i).Checking?
    ensures Queued(y, s')
  {
    hide Covered;
    forall j | j != i ensures Busy(y, s', j) <==> Busy(y, s, j) { assert At(s', j) == At(s, j); }
    forall j | j != i ensures Paying(y, s', j) <==> Paying(y, s, j) { assert At(s', j) == At(s, j); }
  }

  lemma EnterKeeps(y: System, s: State, i: nat)
    requires Full(y) && Invariant(y, s) && IsPay(y, i) && Undisturbed(y, s, i) && At(s, i) == Ready && s.lock == None
    ensures Invariant(y, Move(y, s, i))
  {
    hide Undisturbed, Full, AllFit, AttemptsFit, HeadsAreOpen, GetAttempt, Head, Alone, Warned, AllCovered, Owned;
    hide LockFits;
    var s', o := Move(y, s, i), y.duties[i].order;
    LockStays(y, s, s', i);
    if At(s', i) == Checked {
      NobodyChecked(y, s, i);
    } else {
      forall j | Busy(y, s, j) && i != j && StepOf(y, j) == StepOf(y, i)
        ensures y.duties[j].order.attemptId == At(s', i).attemptId
      {
        BusyOwns(y, s, i, j);
        HeadOfOwned(y, s.client, y.duties[j].order);
      }
    }
    CheckingQueued(y, s, s', i);
    ReadKeeps(y, s, s', i);
  }

  lemma HeadOfOwned(y: System, c: Client, o: Order)
    requires Owned(y, c, o)
    ensures Head(c, y.scope, o.stepId) == Some(o.attemptId)
    ensures GetAttempt(c, y.scope, o.attemptId) == Some(IntentOf(o))
  {
  }

  lemma CheckKeeps(y: System, s: State, i: nat)
    requires Full(y) && Invariant(y, s) && IsPay(y, i) && Undisturbed(y, s, i) && At(s, i).Checking?
    ensures Invariant(y, Move(y, s, i))
  {
    hide ReconcileMove, ObserveMove, FinalizeMove, Release, Enter, Book, Intend, Persist, Return, Mark;
    hide Undisturbed, Full, AllFit, AttemptsFit, HeadsAreOpen, GetAttempt, Alone, Warned, AllCovered, Stops, LockFits;
    var s' := Move(y, s, i);
    HoldsLock(y, s, i);
    LockStays(y, s, s', i);
    if At(s', i) == Checked {
      NobodyChecked(y, s, i);
      CheckingQueued(y, s, s', i);
    } else {
      StaysQueued(y, s, s', i);
    }
    ReadKeeps(y, s, s', i);
  }

  lemma HoldsLock(y: System, s: State, i: nat)
    requires LockFits(y, s) && IsPay(y, i) && Locking(At(s, i))
    ensures s.lock == Some(i)
  {
  }

  // ----- payments: the reservation --------------------------------------------------------

  lemma ReserveCovers(ls: Ledgers, o: Order)
    requires Reserve(ls, SpendingOf(o)).Some?
    ensures Covered(Reserve(ls, SpendingOf(o)).value, o)
  {
    hide SpendKey, ReservationId;
    var s := SpendingOf(o);
    var body := Body(ls, s);
    if !Reserved(body.entries, s.reservationId) {
      var entries := Body(Reserve(ls, s).value, s).entries;
      assert entries[|body.entries|].id == s.reservationId;
    }
  }

  lemma ReserveKeepsCover(ls: Ledgers, o: Order, other: Order)
    requires Reserve(ls, SpendingOf(o)).Some? && Covered(ls, other)
    ensures Covered(Reserve(ls, SpendingOf(o)).value, other)
  {
    hide SpendKey, ReservationId, Permitted;
    var s, t := SpendingOf(o), SpendingOf(other);
    var before, after := Body(ls, t).entries, Body(Reserve(ls, s).value, t).entries;
    var k :| 0 <= k < |before| && before[k].id == t.reservationId;
    assert after[k] == before[k];
  }

  lemma BookedQueued(y: System, s: State, s': State, i: nat)
    requires Queued(y, s) && LockFits(y, s') && IsPay(y, i) && At(s, i) == Checked && At(s', i) == Booked
    requires forall j: nat :: j != i ==> At(s', j) == At(s, j)
    requires Reserve(s.ledgers, SpendingOf(y.duties[i].order)) == Some(s'.ledgers)
    ensures Queued(y, s')
  {
    hide Covered, Reserve, SpendingOf, LockFits;
    forall j ensures Busy(y, s', j) <==> Busy(y, s, j) { if j != i { assert At(s', j) == At(s, j); } }
    forall j | Paying(y, s', j) ensures Covered(s'.ledgers, y.duties[j].order) {
      if j == i {
        ReserveCovers(s.ledgers, y.duties[i].order);
      } else {
        assert At(s', j) == At(s, j) && Paying(y, s, j);
        ReserveKeepsCover(s.ledgers, y.duties[i].order, y.duties[j].order);
      }
    }
  }

  lemma BookKeeps(y: System, s: State, i: nat)
    requires Full(y) && Invariant(y, s) && IsPay(y, i) && Undisturbed(y, s, i) && At(s, i) == Checked
    ensures Invariant(y, Move(y, s, i))
  {
    hide Undisturbed, Full, AllFit, AttemptsFit, HeadsAreOpen, Reserve, Alone, Warned, AllCovered, SpendingOf, LockFits;
    var s' := Move(y, s, i);
    HoldsLock(y, s, i);
    LockStays(y, s, s', i);
    if At(s', i) == Booked {
      BookedQueued(y, s, s', i);
    } else {
      StaysQueued(y, s, s', i);
    }
    ReadKeeps(y, s, s', i);
  }

  // ----- payments: the intent -------------------------------------------------------------

  /** A busy payment shares its step with no other one that relies on its intent. */
  lemma NoOtherHolder(y: System, s: State, s': State, i: nat)
    requires Alone(y, s) && IsPay(y, i) && Busy(y, s, i)
    ensures HoldersFit(y, s, s', i)
  {
    hide LocalFits;
    assert forall j :: Holding(y, s, j) ==> Busy(y, s, j);
  }

  /** A head stays open when the attempt that it names is unchanged, or is saved open. */
  lemma SavedHeadOpen(y: System, s: State, s': State, i: nat, a: Attempt)
    requires HeadsAreOpen(y, s) && i in y.duties && a.scope == y.scope && !At(s, i).Releasing?
    requires forall j: nat :: j != i ==> At(s', j) == At(s, j)
    requires s'.client == Put(s.client, AttemptRecord(a))
    requires Final(a.status) ==> At(s', i) == Releasing(a.stepId, None)
    ensures Head(s'.client, y.scope, a.stepId).Some? ==> OpenHead(y, s', a.stepId)
  {
    hide GetAttempt, Head, Put;
    SaveReads(y, s.client, a);
    if Head(s'.client, y.scope, a.stepId).Some? {
      assert OpenHead(y, s, a.stepId);
      if Clearing(y, s, a.stepId) {
        var k :| k in y.duties && At(s, k) == Releasing(a.stepId, None);
        assert At(s', k) == Releasing(a.stepId, None);
      }
    }
  }

  lemma IntendKeeps(y: System, s: State, i: nat)
    requires Full(y) && Invariant(y, s) && IsPay(y, i) && Undisturbed(y, s, i) && At(s, i) == Booked
    ensures Invariant(y, Move(y, s, i))
  {
    hide ReconcileMove, ObserveMove, FinalizeMove, Release, Enter, Book, Check, Persist, Return, Mark;
    hide Undisturbed, Full, AllFit, AttemptsFit, HeadsAreOpen, GetAttempt, Head, Alone, Warned, AllCovered, LockFits;
    hide Put, HoldersFit, OpenHead, AttemptFits, Touches;
    var s', o := Move(y, s, i), y.duties[i].order;
    HoldsLock(y, s, i);
    LockStays(y, s, s', i);
    StaysQueued(y, s, s', i);
    if At(s', i) == Intending {
      OwnAttemptFits(y, i, IntentOf(o));
      SaveKeepsFit(y, s.client, IntentOf(o));
      SaveReads(y, s.client, IntentOf(o));
      NoOtherHolder(y, s, s', i);
      SavedHeadOpen(y, s, s', i, IntentOf(o));
      Assembled(y, s, s', i);
    } else {
      ReadKeeps(y, s, s', i);
    }
  }

  lemma PersistKeeps(y: System, s: State, i: nat)
    requires Full(y) && Invariant(y, s) && IsPay(y, i) && Undisturbed(y, s, i) && At(s, i) == Intending
    ensures Invariant(y, Move(y, s, i))
  {
    hide Undisturbed, Full, AllFit, AttemptsFit, HeadsAreOpen, GetAttempt, Head, Alone, Warned, AllCovered, LockFits;
    hide SetHead, HoldersFit, Clearing, Touches;
    var s', o := Move(y, s, i), y.duties[i].order;
    HoldsLock(y, s, i);
    LockStays(y, s, s', i);
    StaysQueued(y, s, s', i);
    Fitting(y, s, i);
    SetKeepsFit(y, s.client, o.stepId, Some(o.attemptId));
    SetReads(y, s.client, o.stepId, Some(o.attemptId));
    NoOtherHolder(y, s, s', i);
    Assembled(y, s, s', i);
  }

  // ----- payments: the outcome ------------------------------------------------------------

  lemma NotLocking(y: System, s: State, i: nat)
    requires LockFits(y, s) && !Locking(At(s, i))
    ensures s.lock != Some(i)
  {
  }

  lemma SendKeeps(y: System, s: State, i: nat)
    requires Full(y) && Invariant(y, s) && IsPay(y, i) && Undisturbed(y, s, i) && At(s, i) == Persisted
    ensures Invariant(y, Move(y, s, i))
  {
    hide Undisturbed, Full, AllFit, AttemptsFit, HeadsAreOpen, Alone, Warned, AllCovered, LockFits, Owned;
    var s' := Move(y, s, i);
    NotLocking(y, s, i);
    LockStays(y, s, s', i);
    StaysQueued(y, s, s', i);
    Fitting(y, s, i);
    ReadKeeps(y, s, s', i);
  }

  lemma ReturnKeeps(y: System, s: State, i: nat)
    requires Full(y) && Invariant(y, s) && IsPay(y, i) && Undisturbed(y, s, i) && At(s, i) == InFlight
    ensures Invariant(y, Move(y, s, i))
  {
    hide Undisturbed, Full, AllFit, AttemptsFit, HeadsAreOpen, Alone, Warned, AllCovered, LockFits, GetAttempt, Head;
    var s' := Move(y, s, i);
    NotLocking(y, s, i);
    LockStays(y, s, s', i);
    StaysQueued(y, s, s', i);
    Fitting(y, s, i);
    ReadKeeps(y, s, s', i);
  }

  lemma MarkedFits(y: System, i: nat)
    requires IsPay(y, i) && y.duties[i].order.scope == y.scope
    ensures var o, r := y.duties[i].order, y.duties[i].response;
      var a := Marked(IntentOf(o), o, r);
      && AttemptFits(y, a.attemptId, a) && a.attemptId == o.attemptId && a.stepId == o.stepId && a.scope == y.scope
      && a.status == StatusAfter(o, r)
  {
    hide UsedOn, Signs;
    var o, r := y.duties[i].order, y.duties[i].response;
    OwnAttemptFits(y, i, Marked(IntentOf(o), o, r));
  }

  lemma MarkKeeps(y: System, s: State, i: nat)
    requires Full(y) && Invariant(y, s) && IsPay(y, i) && Undisturbed(y, s, i) && At(s, i).Marking?
    ensures Invariant(y, Move(y, s, i))
  {
    hide Undisturbed, Full, AllFit, AttemptsFit, HeadsAreOpen, Alone, Warned, AllCovered, LockFits, GetAttempt, Head;
    hide Put, HoldersFit, OpenHead, AttemptFits, Marked, StatusAfter, Touches;
    var s', o, r := Move(y, s, i), y.duties[i].order, y.duties[i].response;
    NotLocking(y, s, i);
    LockStays(y, s, s', i);
    StaysQueued(y, s, s', i);
    Fitting(y, s, i);
    MarkedFits(y, i);
    SaveKeepsFit(y, s.client, Marked(IntentOf(o), o, r));
    SaveReads(y, s.client, Marked(IntentOf(o), o, r));
    NoOtherHolder(y, s, s', i);
    SavedHeadOpen(y, s, s', i, Marked(IntentOf(o), o, r));
    Assembled(y, s, s', i);
  }

  lemma PayReleaseKeeps(y: System, s: State, i: nat)
    requires Full(y) && Invariant(y, s) && IsPay(y, i) && Undisturbed(y, s, i) && At(s, i).Releasing?
    ensures Invariant(y, Move(y, s, i))
  {
    hide ReconcileMove, ObserveMove, FinalizeMove, PayMove;
    hide Undisturbed, Full, AllFit, AttemptsFit, HeadsAreOpen, Alone, Warned, AllCovered, LockFits, GetAttempt, Head;
    hide SetHead, HoldersFit, Clearing, Marked, StatusAfter, Touches;
    var s', o := Move(y, s, i), y.duties[i].order;
    NotLocking(y, s, i);
    LockStays(y, s, s', i);
    StaysQueued(y, s, s', i);
    Fitting(y, s, i);
    MarkedFits(y, i);
    SetKeepsFit(y, s.client, o.stepId, At(s, i).head);
    SetReads(y, s.client, o.stepId, At(s, i).head);
    NoOtherHolder(y, s, s', i);
    Assembled(y, s, s', i);
  }

  // ----- observations and finalizations ---------------------------------------------------

  /** An operation other than a payment leaves the order of payments alone. */
  lemma OthersStayQueued(y: System, s: State, s': State, i: nat)
    requires Queued(y, s) && i in y.duties && !y.duties[i].Pay? && forall j: nat :: j != i ==> At(s', j) == At(s, j)
    requires s'.ledgers == s.ledgers && s'.lock == s.lock && !At(s', i).Checking?
    ensures Queued(y, s')
  {
    hide Covered, Alone, Warned, AllCovered;
    assert s.lock != Some(i);
    LockStays(y, s, s', i);
    StaysQueued(y, s, s', i);
  }

  /** Nobody relies on an intent under a head whose attempt knows its job; intents elsewhere on the step stay. */
  lemma JobHoldersFit(y: System, s: State, s': State, i: nat, id: string)
    requires i in y.duties && AllFit(y, s) && forall j: nat :: j != i ==> At(s', j) == At(s, j)
    requires Head(s.client, y.scope, StepOf(y, i)) == Some(id)
    requires GetAttempt(s.client, y.scope, id).Some? && GetAttempt(s.client, y.scope, id).value.jobId.Some?
    requires forall other :: other != id ==>
      GetAttempt(s'.client, y.scope, other) == GetAttempt(s.client, y.scope, other)
    ensures HoldersFit(y, s, s', i)
  {
    hide GetAttempt, Head, Marked;
    forall j | Holding(y, s, j) && j != i && StepOf(y, j) == StepOf(y, i) ensures LocalFits(y, s', j) {
      assert LocalFits(y, s, j) && At(s', j) == At(s, j);
      assert IntentOf(y.duties[j].order).jobId == None;
    }
  }

  lemma LookKeeps(y: System, s: State, i: nat)
    requires Full(y) && Invariant(y, s) && i in y.duties && y.duties[i].Reconcile? && Undisturbed(y, s, i)
    requires At(s, i) == Ready || At(s, i).Looking? || At(s, i).Looked?
    ensures Invariant(y, Move(y, s, i))
  {
    hide PayMove, ObserveMove, FinalizeMove, Release, SaveObserved;
    hide Undisturbed, Full, AllFit, Queued, GetAttempt, Head, Clearing, UsedOn, Signs;
    var s', stepId := Move(y, s, i), y.duties[i].stepId;
    OthersStayQueued(y, s, s', i);
    Fitting(y, s, i);
    if At(s, i).Looking? {
      var a := GetAttempt(s.client, y.scope, At(s, i).attemptId);
      if a.Some? {
        assert AttemptFits(y, At(s, i).attemptId, a.value) && OpenHead(y, s, stepId);
      }
    }
    if At(s, i).Looked? {
      assert AttemptFits(y, At(s, i).attemptId, GetAttempt(s.client, y.scope, At(s, i).attemptId).value);
    }
    ReadKeeps(y, s, s', i);
  }

  lemma ObservedFits(y: System, id: string, a: Attempt, r: JobRecord, fixture: bool)
    requires AttemptFits(y, id, a)
    ensures var b := Observed(a, r, fixture);
      && AttemptFits(y, id, b) && a.attemptId == b.attemptId == id && b.stepId == a.stepId && b.jobId.Some?
      && (Final(b.status) <==> HeadAfterObservation(b) == None)
      && (HeadAfterObservation(b).Some? ==> HeadAfterObservation(b) == Some(id))
  {
    hide UsedOn, Signs, Mismatch;
  }

  lemma ClosedFits(y: System, id: string, a: Attempt, f: Closing)
    requires AttemptFits(y, id, a) && Closable(a, y.scope, f)
    ensures var b := ClosedAttempt(a, f);
      && AttemptFits(y, id, b) && a.attemptId == b.attemptId == id && b.stepId == a.stepId == f.stepId && b.jobId.Some?
  {
    hide UsedOn, Signs;
  }

  /** Saving the attempt that the head names, with its job, before the head is written. */
  lemma SectionSaveKeeps(y: System, s: State, s': State, i: nat, a: Attempt, b: Attempt, head: Option<string>)
    requires Full(y) && Invariant(y, s) && i in y.duties && !y.duties[i].Pay? && !y.duties[i].Observe?
    requires Undisturbed(y, s, i) && !At(s, i).Releasing?
    requires Names(y, s.client, StepOf(y, i), a.attemptId, a) && a.jobId.Some? && AttemptFits(y, a.attemptId, b)
    requires b.attemptId == a.attemptId && b.stepId == a.stepId && b.jobId.Some?
    requires if head == None then true else head == Some(a.attemptId) && !Final(b.status)
    requires s' == To(s.(client := Put(s.client, AttemptRecord(b))), i, Releasing(a.stepId, head))
    ensures Invariant(y, s')
  {
    hide Undisturbed, Full, AllFit, AttemptsFit, HeadsAreOpen, Queued, Put, HoldersFit, Clearing, Touches, UsedOn;
    hide Signs, GetAttempt, Head;
    OthersStayQueued(y, s, s', i);
    SaveKeepsFit(y, s.client, b);
    SaveReads(y, s.client, b);
    JobHoldersFit(y, s, s', i, a.attemptId);
    SavedHeadOpen(y, s, s', i, b);
    Assembled(y, s, s', i);
  }

  lemma RecordKeeps(y: System, s: State, i: nat)
    requires Full(y) && Invariant(y, s) && i in y.duties && y.duties[i].Reconcile? && Undisturbed(y, s, i)
    requires At(s, i).Observing?
    ensures Invariant(y, Move(y, s, i))
  {
    hide Undisturbed, Full, AllFit, Queued, HeadsAreOpen, GetAttempt, Head, Observed, HeadAfterObservation, Put;
    var a := At(s, i).attempt;
    Fitting(y, s, i);
    assert AttemptFits(y, a.attemptId, a);
    ObservedFits(y, a.attemptId, a, y.duties[i].record, y.duties[i].fixture);
    var b := Observed(a, y.duties[i].record, y.duties[i].fixture);
    SectionSaveKeeps(y, s, Move(y, s, i), i, a, b, HeadAfterObservation(b));
  }

  lemma BeginKeeps(y: System, s: State, i: nat)
    requires Full(y) && Invariant(y, s) && i in y.duties && y.duties[i].Finalize? && Undisturbed(y, s, i)
    requires At(s, i) == Ready && BeginsAtHead(y, s, i)
    ensures Invariant(y, Move(y, s, i))
  {
    hide Undisturbed, Full, AllFit, AttemptsFit, HeadsAreOpen, Queued, GetAttempt, Head;
    var s' := Move(y, s, i);
    OthersStayQueued(y, s, s', i);
    ReadKeeps(y, s, s', i);
  }

  lemma KeepKeeps(y: System, s: State, i: nat)
    requires Full(y) && Invariant(y, s) && i in y.duties && y.duties[i].Finalize? && Undisturbed(y, s, i)
    requires At(s, i).Closing?
    ensures Invariant(y, Move(y, s, i))
  {
    hide Undisturbed, Full, AllFit, AttemptsFit, HeadsAreOpen, Queued, GetAttempt, Head, Closable, Put;
    var s' := Move(y, s, i);
    OthersStayQueued(y, s, s', i);
    WorkReads(y, s.client, ClosedWork(y.scope, y.duties[i].closing));
    Fitting(y, s, i);
    ReadKeeps(y, s, s', i);
  }

  lemma CloseKeeps(y: System, s: State, i: nat)
    requires Full(y) && Invariant(y, s) && i in y.duties && y.duties[i].Finalize? && Undisturbed(y, s, i)
    requires At(s, i).Kept?
    ensures Invariant(y, Move(y, s, i))
  {
    hide Undisturbed, Full, AllFit, Queued, HeadsAreOpen, GetAttempt, Head, ClosedAttempt, Put;
    var a, f := At(s, i).attempt, y.duties[i].closing;
    Fitting(y, s, i);
    assert AttemptFits(y, f.attemptId, a);
    ClosedFits(y, f.attemptId, a, f);
    SectionSaveKeeps(y, s, Move(y, s, i), i, a, ClosedAttempt(a, f), None);
  }

  lemma ReleaseKeeps(y: System, s: State, i: nat)
    requires Full(y) && Invariant(y, s) && i in y.duties && !y.duties[i].Pay? && !y.duties[i].Observe?
    requires Undisturbed(y, s, i) && At(s, i).Releasing?
    ensures Invariant(y, Move(y, s, i))
  {
    hide Undisturbed, Full, AllFit, AttemptsFit, HeadsAreOpen, Queued, GetAttempt, Head, SetHead, HoldersFit, Clearing;
    hide Touches;
    var s', x := Move(y, s, i), StepOf(y, i);
    OthersStayQueued(y, s, s', i);
    Fitting(y, s, i);
    SetKeepsFit(y, s.client, x, At(s, i).head);
    SetReads(y, s.client, x, At(s, i).head);
    JobHoldersFit(y, s, s', i, Head(s.client, y.scope, x).value);
    Assembled(y, s, s', i);
  }

  // ----- every move -----------------------------------------------------------------------

  lemma PayKeeps(y: System, s: State, i: nat)
    requires Full(y) && Invariant(y, s) && IsPay(y, i) && Undisturbed(y, s, i)
    ensures Invariant(y, Move(y, s, i))
  {
    hide Invariant, Full, Undisturbed, Enter, Check, Book, Intend, Persist, Return, Mark, Release;
    match At(s, i)
    case Ready => if s.lock == None { EnterKeeps(y, s, i); } else { EnterWaits(y, s, i, y.duties[i].order); }
    case Checking(_) => CheckKeeps(y, s, i);
    case Checked => BookKeeps(y, s, i);
    case Booked => IntendKeeps(y, s, i);
    case Intending => PersistKeeps(y, s, i);
    case Persisted => SendKeeps(y, s, i);
    case InFlight => ReturnKeeps(y, s, i);
    case Marking(_) => MarkKeeps(y, s, i);
    case Releasing(_, _) => PayReleaseKeeps(y, s, i);
    case _ =>
  }

  lemma EnterWaits(y: System, s: State, i: nat, o: Order)
    requires s.lock.Some?
    ensures Enter(y, s, i, o) == s
  {
  }

  /** Every move that the discipline allows keeps the invariant. */
  lemma MoveKeeps(y: System, s: State, i: nat)
    requires Full(y) && Invariant(y, s) && Allowed(FULL, y, s, i)
    ensures Invariant(y, Move(y, s, i))
  {
    hide Invariant, Full, Undisturbed, PayMove, Find, SaveObserved, Release, Intrudes, Closable, ClosedAttempt;
    hide ClosedWork;
    if i in y.duties && Move(y, s, i) != s {
      AllowedIsUndisturbed(y, s, i);
      match y.duties[i]
      case Pay(_, _) => PayKeeps(y, s, i);
      case Observe(_, _, _) => NoObservers(y, i);
      case Reconcile(_, _, _) =>
        if At(s, i).Releasing? { ReleaseKeeps(y, s, i); }
        else if At(s, i).Observing? { RecordKeeps(y, s, i); }
        else { LookKeeps(y, s, i); }
      case Finalize(_) =>
        if At(s, i).Releasing? { ReleaseKeeps(y, s, i); }
        else if At(s, i).Kept? { CloseKeeps(y, s, i); }
        else if At(s, i).Closing? { KeepKeeps(y, s, i); }
        else { BeginKeeps(y, s, i); }
    }
  }

  lemma NoObservers(y: System, i: nat)
    requires Full(y) && i in y.duties
    ensures !y.duties[i].Observe?
  {
  }

  lemma StartFits(y: System)
    ensures Invariant(y, START)
  {
  }
}
