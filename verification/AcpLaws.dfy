/** A schedule that keeps every habit of the discipline is safe after every store access; once an outcome is ambiguous,
    its step sends nothing more; and a thread that is left alone does what the adapter's operation does. */
module AcpLaws {
  import opened Options
  import opened Json
  import opened Types
  import opened Core
  import opened Store
  import opened Engine
  import opened Spend
  import opened Reconcile
  import opened Acp
  import opened AcpProtocol
  import opened AcpInvariant

  // ----- safety ---------------------------------------------------------------------------

  lemma {:induction false} RunKeeps(y: System, moves: seq<nat>)
    requires Keeps(FULL, y, moves)
    ensures Invariant(y, Interleave(y, moves))
  {
    hide Move, Invariant, Allowed, Disciplined;
    if moves == [] {
      StartFits(y);
    } else {
      RunKeeps(y, moves[..|moves| - 1]);
      MoveKeeps(y, Interleave(y, moves[..|moves| - 1]), moves[|moves| - 1]);
    }
  }

  /** After every access of a schedule that keeps the discipline: at most one command per step is in flight, each is
      backed by its reservation and a persisted submitting attempt under the step's head, and no head names a finished
      attempt unless somebody is about to clear it. */
  lemma DisciplinedRunsAreSafe(y: System, moves: seq<nat>)
    requires Keeps(FULL, y, moves)
    ensures Safe(y, Interleave(y, moves))
  {
    RunKeeps(y, moves);
    InvariantIsSafe(y, Interleave(y, moves));
  }

  // ----- ambiguity ------------------------------------------------------------------------

  /** The head names an ambiguous attempt without a job, nobody is busy on the step, and who is checking the step has
      read that attempt's id. */
  ghost predicate Frozen(y: System, s: State, stepId: string, id: string) {
    && Stuck(y, s.client, stepId, id)
    && (forall j :: Busy(y, s, j) ==> StepOf(y, j) != stepId)
    && (forall j :: IsPay(y, j) && StepOf(y, j) == stepId && At(s, j).Checking? ==> At(s, j).attemptId == id)
  }

  ghost predicate Stuck(y: System, c: Client, stepId: string, id: string) {
    && Head(c, y.scope, stepId) == Some(id)
    && var a := GetAttempt(c, y.scope, id);
    a.Some? && a.value.status == Ambiguous && a.value.jobId == None && a.value.stepId == stepId
  }

  lemma SavedTouches(y: System, c: Client, a: Attempt, stepId: string)
    requires a.scope == y.scope && UsedOn(y, a.attemptId, stepId)
    ensures Touches(y, c, Put(c, AttemptRecord(a)), stepId)
  {
    hide UsedOn, GetAttempt, Head, Put;
    SaveReads(y, c, a);
  }

  lemma SetTouches(y: System, c: Client, stepId: string, head: Option<string>)
    ensures Touches(y, c, SetHead(c, y.scope, stepId, head), stepId)
  {
    hide UsedOn, GetAttempt, Head, SetHead;
    SetReads(y, c, stepId, head);
  }

  lemma NothingTouches(y: System, c: Client, stepId: string)
    ensures Touches(y, c, c, stepId)
  {
  }

  lemma PayTouches(y: System, s: State, i: nat)
    requires Invariant(y, s) && IsPay(y, i)
    ensures Touches(y, s.client, Move(y, s, i).client, StepOf(y, i))
  {
    hide Invariant, Touches, UsedOn, GetAttempt, Head, Put, SetHead, Reserve, StatusAfter, Duplicate, Stops;
    hide HeadAfterMark;
    var o := y.duties[i].order;
    assert UsedOn(y, o.attemptId, o.stepId) by { OwnIdIsUsed(y, i); }
    Fitting(y, s, i);
    NothingTouches(y, s.client, o.stepId);
    match At(s, i)
    case Booked => if o.scope == y.scope { SavedTouches(y, s.client, IntentOf(o), o.stepId); }
    case Intending => SetTouches(y, s.client, o.stepId, Some(o.attemptId));
    case Marking(a) => SavedTouches(y, s.client, Marked(a, o, y.duties[i].response), o.stepId);
    case Releasing(stepId, head) => SetTouches(y, s.client, stepId, head);
    case _ =>
  }

  lemma OwnIdIsUsed(y: System, i: nat)
    requires IsPay(y, i)
    ensures UsedOn(y, y.duties[i].order.attemptId, y.duties[i].order.stepId)
  {
  }

  lemma ReconcileTouches(y: System, s: State, i: nat)
    requires Invariant(y, s) && i in y.duties && y.duties[i].Reconcile?
    ensures Touches(y, s.client, Move(y, s, i).client, StepOf(y, i))
  {
    hide Queued, AllFit, HeadsAreOpen, Touches, UsedOn, Signs, GetAttempt, Head, Put, SetHead, Observed;
    hide HeadAfterObservation, ReleaseFits;
    Fitting(y, s, i);
    NothingTouches(y, s.client, StepOf(y, i));
    match At(s, i)
    case Observing(a) =>
      assert AttemptFits(y, a.attemptId, a);
      var b := Observed(a, y.duties[i].record, y.duties[i].fixture);
      ObservedFits(y, a.attemptId, a, y.duties[i].record, y.duties[i].fixture);
      SavedTouches(y, s.client, b, StepOf(y, i));
    case Releasing(stepId, head) => SetTouches(y, s.client, stepId, head);
    case _ =>
  }

  lemma FinalizeTouches(y: System, s: State, i: nat)
    requires Invariant(y, s) && i in y.duties && y.duties[i].Finalize?
    ensures Touches(y, s.client, Move(y, s, i).client, StepOf(y, i))
  {
    hide Queued, AllFit, HeadsAreOpen, Touches, UsedOn, Signs, GetAttempt, Head, Put, SetHead, ClosedAttempt, Closable;
    hide ReleaseFits;
    var f := y.duties[i].closing;
    Fitting(y, s, i);
    NothingTouches(y, s.client, f.stepId);
    match At(s, i)
    case Closing(_) => WorkTouches(y, s.client, ClosedWork(y.scope, f), f.stepId);
    case Kept(a) =>
      assert AttemptFits(y, f.attemptId, a);
      ClosedFits(y, f.attemptId, a, f);
      SavedTouches(y, s.client, ClosedAttempt(a, f), f.stepId);
    case Releasing(stepId, head) => SetTouches(y, s.client, stepId, head);
    case _ =>
  }

  lemma WorkTouches(y: System, c: Client, r: WorkResult, stepId: string)
    ensures Touches(y, c, Put(c, Work(r)), stepId)
  {
    hide UsedOn, GetAttempt, Head, Put;
    WorkReads(y, c, r);
  }

  /** A move touches its own step only. */
  lemma MoveTouches(y: System, s: State, i: nat)
    requires Full(y) && Invariant(y, s) && i in y.duties
    ensures Touches(y, s.client, Move(y, s, i).client, StepOf(y, i))
  {
    hide Move, Touches, Invariant;
    match y.duties[i]
    case Pay(_, _) => PayTouches(y, s, i);
    case Reconcile(_, _, _) => ReconcileTouches(y, s, i);
    case Finalize(_) => FinalizeTouches(y, s, i);
    case Observe(_, _, _) =>
  }

  /** A move sets no phase but the thread's own, and logs nothing but the thread when it sends. */
  lemma MovesOwnPhase(y: System, s: State, i: nat)
    ensures forall j: nat :: j != i ==> At(Move(y, s, i), j) == At(s, j)
    ensures Move(y, s, i).log == s.log || (Move(y, s, i).log == s.log + [i] && IsPay(y, i) && At(s, i) == Persisted)
  {
    hide Reserve, Put, SetHead, Stops, Closable, Observed, Marked, StatusAfter, HeadAfterMark, HeadAfterObservation;
    hide GetAttempt, Head, IntentOf, ClosedAttempt, ClosedWork, SpendingOf;
  }

  /** The step is left as it is: no write, no command, nobody busy, nobody checking anything but the stuck attempt. */
  ghost predicate Idles(y: System, s: State, s': State, i: nat, id: string) {
    && s'.client == s.client && s'.log == s.log && !Busy(y, s', i)
    && (IsPay(y, i) && At(s', i).Checking? ==> At(s', i).attemptId == id)
  }

  lemma FrozenPayIdles(y: System, s: State, i: nat, stepId: string, id: string)
    requires Full(y) && Invariant(y, s) && Frozen(y, s, stepId, id) && IsPay(y, i) && StepOf(y, i) == stepId
    ensures Idles(y, s, Move(y, s, i), i, id)
  {
    hide Queued, AllFit, HeadsAreOpen, GetAttempt, Head, UsedOn, Owned, Marked, IntentOf, StatusAfter, Disciplined;
    hide Names;
    var o := y.duties[i].order;
    Fitting(y, s, i);
    assert !Busy(y, s, i);
    FullHabits(y);
    var a := GetAttempt(s.client, y.scope, id).value;
    assert AttemptFits(y, id, a);
    assert Signs(y, stepId, o.signature);
    SignedOnce(y, stepId, a.inputSignature, o.signature);
  }

  lemma FrozenOtherIdles(y: System, s: State, i: nat, stepId: string, id: string)
    requires Full(y) && Invariant(y, s) && Frozen(y, s, stepId, id) && i in y.duties && StepOf(y, i) == stepId
    requires !y.duties[i].Pay? && (FULL.headFinalizes ==> BeginsAtHead(y, s, i))
    ensures Idles(y, s, Move(y, s, i), i, id)
  {
    hide Queued, AllFit, HeadsAreOpen, AttemptsFit, GetAttempt, Head;
    Fitting(y, s, i);
    NoObservers(y, i);
  }

  lemma TouchKeepsStuck(y: System, c: Client, c': Client, stepId: string, id: string, other: string)
    requires Full(y) && AttemptsFit(y, c) && Stuck(y, c, stepId, id) && other != stepId && Touches(y, c, c', other)
    ensures Stuck(y, c', stepId, id)
  {
    hide GetAttempt, Head, AttemptsFit, Touches, Disciplined;
    FullHabits(y);
    HeadStays(y, c, c', other, stepId);
    OtherAttemptStays(y, c, c', other, id);
  }

  /** What a move adds to the log. */
  ghost predicate LogsElsewhere(y: System, s: State, s': State, stepId: string) {
    s'.log == s.log || (|s'.log| == |s.log| + 1 && s'.log[..|s.log|] == s.log
      && (IsPay(y, s'.log[|s.log|]) ==> StepOf(y, s'.log[|s.log|]) != stepId))
  }

  lemma MoveKeepsFrozen(y: System, s: State, i: nat, stepId: string, id: string)
    requires Full(y) && Invariant(y, s) && Frozen(y, s, stepId, id) && Allowed(FULL, y, s, i)
    ensures Frozen(y, Move(y, s, i), stepId, id) && LogsElsewhere(y, s, Move(y, s, i), stepId)
  {
    hide Move, Queued, AllFit, HeadsAreOpen, AttemptsFit, Touches, Stuck, Full, Intrudes, BeginsAtHead;
    var s' := Move(y, s, i);
    if i !in y.duties {
      NoDutyNoMove(y, s, i);
    } else {
      MovesOwnPhase(y, s, i);
      if StepOf(y, i) == stepId {
        if IsPay(y, i) { FrozenPayIdles(y, s, i, stepId, id); } else { FrozenOtherIdles(y, s, i, stepId, id); }
      } else {
        MoveTouches(y, s, i);
        TouchKeepsStuck(y, s.client, s'.client, stepId, id, StepOf(y, i));
      }
      forall j | Busy(y, s', j) ensures StepOf(y, j) != stepId {
        if j != i { assert At(s', j) == At(s, j) && Busy(y, s, j); }
      }
    }
  }

  lemma NoDutyNoMove(y: System, s: State, i: nat)
    requires i !in y.duties
    ensures Move(y, s, i) == s
  {
  }

  lemma {:induction false} FrozenForGood(y: System, moves: seq<nat>, more: seq<nat>, stepId: string, id: string)
    requires Keeps(FULL, y, moves + more) && Keeps(FULL, y, moves) && Frozen(y, Interleave(y, moves), stepId, id)
    ensures var s, s' := Interleave(y, moves), Interleave(y, moves + more);
      && Frozen(y, s', stepId, id) && |s.log| <= |s'.log| && s'.log[..|s.log|] == s.log
      && forall k :: |s.log| <= k < |s'.log| && IsPay(y, s'.log[k]) ==> StepOf(y, s'.log[k]) != stepId
  {
    hide Move, Frozen, Invariant, Allowed, Disciplined;
    if more == [] {
      assert moves + more == moves;
    } else {
      var front := more[..|more| - 1];
      assert (moves + more)[..|moves + more| - 1] == moves + front;
      var s, mid, i := Interleave(y, moves), Interleave(y, moves + front), more[|more| - 1];
      FrozenForGood(y, moves, front, stepId, id);
      RunKeeps(y, moves + front);
      MoveKeepsFrozen(y, mid, i, stepId, id);
      var s' := Interleave(y, moves + more);
      assert s'.log[..|s.log|] == s'.log[..|mid.log|][..|s.log|];
    }
  }

  lemma {:induction false} KeepsFront(y: System, moves: seq<nat>, more: seq<nat>)
    requires Keeps(FULL, y, moves + more)
    ensures Keeps(FULL, y, moves)
  {
    hide Allowed, Disciplined;
    if more == [] {
      assert moves + more == moves;
    } else {
      assert (moves + more)[..|moves + more| - 1] == moves + more[..|more| - 1];
      KeepsFront(y, moves, more[..|more| - 1]);
    }
  }

  /** The thread is about to finish marking an ambiguous outcome. */
  predicate MarksAmbiguity(y: System, s: State, i: nat) {
    IsPay(y, i) && At(s, i).Releasing? && StatusAfter(y.duties[i].order, y.duties[i].response) == Ambiguous
  }

  /** Between the two states the attempt of the thread has stayed ambiguous and without a job identity under its step's
      head, and no further command was sent for the step. */
  ghost predicate StaysStuck(y: System, s: State, s': State, i: nat)
    requires IsPay(y, i)
  {
    var o := y.duties[i].order;
    && Stuck(y, s'.client, o.stepId, o.attemptId) && |s.log| <= |s'.log|
    && forall k :: |s.log| <= k < |s'.log| && IsPay(y, s'.log[k]) ==> StepOf(y, s'.log[k]) != o.stepId
  }

  /** From the moment an ambiguous outcome is marked, the attempt stays ambiguous and without a job identity under the
      step's head, and no further command is sent for the step -- for good: an observation through the head needs the
      job identity that nobody knows. */
  lemma AmbiguityIsFinal(y: System, moves: seq<nat>, i: nat, more: seq<nat>)
    requires Keeps(FULL, y, moves + [i] + more) && MarksAmbiguity(y, Interleave(y, moves), i)
    ensures StaysStuck(y, Interleave(y, moves + [i]), Interleave(y, moves + [i] + more), i)
  {
    hide Move, Invariant, StatusAfter, Allowed, Stuck, Disciplined;
    assert (moves + [i])[..|moves|] == moves;
    KeepsFront(y, moves + [i], more);
    KeepsFront(y, moves, [i]);
    RunKeeps(y, moves);
    MarkFreezes(y, Interleave(y, moves), i);
    FrozenForGood(y, moves + [i], more, y.duties[i].order.stepId, y.duties[i].order.attemptId);
  }

  lemma MarkFreezes(y: System, s: State, i: nat)
    requires Full(y) && Invariant(y, s) && MarksAmbiguity(y, s, i)
    ensures Frozen(y, Move(y, s, i), StepOf(y, i), y.duties[i].order.attemptId)
  {
    hide ReconcileMove, ObserveMove, FinalizeMove, PayMove;
    hide AllCovered, AllFit, AttemptsFit, HeadsAreOpen, LockFits, Disciplined, StatusAfter, GetAttempt, Head, SetHead;
    var s', o, r := Move(y, s, i), y.duties[i].order, y.duties[i].response;
    Fitting(y, s, i);
    SetReads(y, s.client, o.stepId, Some(o.attemptId));
    forall j | Busy(y, s', j) ensures StepOf(y, j) != o.stepId {
      assert j != i && At(s', j) == At(s, j) && Busy(y, s, j) && Busy(y, s, i);
    }
    forall j | IsPay(y, j) && StepOf(y, j) == o.stepId && At(s', j).Checking?
      ensures At(s', j).attemptId == o.attemptId
    {
      assert j != i && At(s', j) == At(s, j) && Busy(y, s, i);
    }
  }

  // ----- a thread alone does what the adapter's operation does ----------------------------

  /** `n` moves of one thread, undisturbed. */
  function Solo(y: System, s: State, i: nat, n: nat): State {
    if n == 0 then s else Move(y, Solo(y, s, i, n - 1), i)
  }

  lemma {:induction false} EndedStays(y: System, s: State, i: nat, k: nat, n: nat)
    requires k <= n && At(Solo(y, s, i, k), i) == Ended
    ensures Solo(y, s, i, n) == Solo(y, s, i, k)
    decreases n
  {
    hide Move;
    if k < n {
      EndedStays(y, s, i, k, n - 1);
      EndedMovesNot(y, Solo(y, s, i, k), i);
    }
  }

  lemma EndedMovesNot(y: System, s: State, i: nat)
    requires At(s, i) == Ended
    ensures Move(y, s, i) == s
  {
  }

  lemma {:induction false} SoloAgain(y: System, s: State, i: nat, m: nat, n: nat)
    ensures Solo(y, Solo(y, s, i, m), i, n) == Solo(y, s, i, m + n)
    decreases n
  {
    hide Move;
    if n > 0 {
      SoloAgain(y, s, i, m, n - 1);
    }
  }

  /** Where a thread and the shared state are; the other threads do not matter. */
  ghost predicate Stands(s: State, i: nat, client: Client, ledgers: Ledgers, lock: Option<nat>, log: seq<nat>, p: Phase)
  {
    s.client == client && s.ledgers == ledgers && s.lock == lock && s.log == log && At(s, i) == p
  }

  /** The check: one access when the head is clear, two when it names an attempt. */
  lemma ChecksAlone(y: System, s: State, i: nat) returns (k: nat)
    requires IsPay(y, i) && At(s, i) == Ready && s.lock == None
    ensures 1 <= k <= 2
    ensures if Duplicate(s.client, y.scope, y.duties[i].order)
      then Stands(Solo(y, s, i, k), i, s.client, s.ledgers, None, s.log, Ended)
      else Stands(Solo(y, s, i, k), i, s.client, s.ledgers, Some(i), s.log, Checked)
  {
    hide GetAttempt, Head, Stops;
    assert Solo(y, s, i, 0) == s && Solo(y, s, i, 1) == Move(y, s, i);
    k := if Head(s.client, y.scope, y.duties[i].order.stepId) == None then 1 else 2;
    assert Solo(y, s, i, 2) == Move(y, Solo(y, s, i, 1), i);
  }

  /** From the reservation to the command: three accesses. */
  lemma SendsAlone(y: System, s: State, i: nat)
    requires IsPay(y, i) && At(s, i) == Booked && y.duties[i].order.scope == y.scope
    ensures var client := Intended(s.client, y.duties[i].order);
      Stands(Solo(y, s, i, 3), i, client, s.ledgers, None, s.log + [i], InFlight)
  {
    hide Put, SetHead, IntentOf;
    assert Solo(y, s, i, 0) == s && Solo(y, s, i, 1) == Move(y, s, i);
    assert Solo(y, s, i, 2) == Move(y, Solo(y, s, i, 1), i) && Solo(y, s, i, 3) == Move(y, Solo(y, s, i, 2), i);
  }

  /** From the answer to the end: three accesses. */
  lemma MarksAlone(y: System, s: State, i: nat)
    requires IsPay(y, i) && At(s, i) == InFlight && y.duties[i].order.scope == y.scope
    requires GetAttempt(s.client, y.scope, y.duties[i].order.attemptId) == Some(IntentOf(y.duties[i].order))
    ensures var o, r := y.duties[i].order, y.duties[i].response;
      Stands(Solo(y, s, i, 3), i, MarkedIn(s.client, IntentOf(o), o, r), s.ledgers, s.lock, s.log, Ended)
  {
    hide Put, SetHead, IntentOf, Marked, StatusAfter, HeadAfterMark, GetAttempt;
    assert Solo(y, s, i, 0) == s && Solo(y, s, i, 1) == Move(y, s, i);
    assert Solo(y, s, i, 2) == Move(y, Solo(y, s, i, 1), i) && Solo(y, s, i, 3) == Move(y, Solo(y, s, i, 2), i);
  }

  /** Persisting an intent changes one attempt and one head. */
  lemma IntendedReads(c: Client, o: Order)
    ensures var c' := Intended(c, o);
      && GetAttempt(c', o.scope, o.attemptId) == Some(IntentOf(o))
      && (forall id :: id != o.attemptId ==> GetAttempt(c', o.scope, id) == GetAttempt(c, o.scope, id))
      && Head(c', o.scope, o.stepId) == Some(o.attemptId)
      && (forall other :: other != o.stepId ==> Head(c', o.scope, other) == Head(c, o.scope, other))
  {
  }

  /** Undisturbed, the accesses of a payment amount to the adapter's operation, and the command is sent once if and
      only if the operation does not raise. */
  lemma AloneIsPerformed(y: System, s: State, i: nat)
    requires IsPay(y, i) && At(s, i) == Ready && s.lock == None
    ensures var done := Performed(s.client, s.ledgers, y.scope, y.duties[i].order, y.duties[i].response);
      Stands(Solo(y, s, i, 9), i, done.client, done.ledgers, None,
        if done.status.Some? then s.log + [i] else s.log, Ended)
  {
    hide ReconcileMove, ObserveMove, FinalizeMove, Release, Enter, Check, Persist, Return, Mark;
    hide Duplicate, Reserve, SpendingOf, Intended, MarkedIn, StatusAfter, IntentOf, GetAttempt, Solo;
    var o, r := y.duties[i].order, y.duties[i].response;
    var k := ChecksAlone(y, s, i);
    var checked := Solo(y, s, i, k);
    if At(checked, i) == Ended {
      EndedStays(y, s, i, k, 9);
    } else {
      var booked := Move(y, checked, i);
      SoloNext(y, s, i, k);
      if At(booked, i) == Ended {
        EndedStays(y, s, i, k + 1, 9);
      } else {
        if o.scope != y.scope {
          SoloNext(y, s, i, k + 1);
          EndedStays(y, s, i, k + 2, 9);
        } else {
          SendsAlone(y, booked, i);
          SoloAgain(y, s, i, k + 1, 3);
          IntendedReads(s.client, o);
          MarksAlone(y, Solo(y, s, i, k + 4), i);
          SoloAgain(y, s, i, k + 4, 3);
          EndedStays(y, s, i, k + 7, 9);
        }
      }
    }
  }

  lemma SoloNext(y: System, s: State, i: nat, k: nat)
    ensures Solo(y, s, i, k + 1) == Move(y, Solo(y, s, i, k), i)
  {
    hide Move;
  }

  /** From the head to the attempt that is observed: three accesses. */
  lemma LooksAlone(y: System, s: State, i: nat)
    requires i in y.duties && y.duties[i].Reconcile? && At(s, i) == Ready && Consistent(s.client)
    ensures match Reconcilable(s.client, y.scope, y.duties[i].stepId)
      case None => Stands(Solo(y, s, i, 3), i, s.client, s.ledgers, s.lock, s.log, Ended)
      case Some(a) =>
        Stands(Solo(y, s, i, 3), i, s.client, s.ledgers, s.lock, s.log, Observing(a)) && a.scope == y.scope
  {
    hide PayMove, ObserveMove, FinalizeMove, Release, SaveObserved;
    hide Consistent, GetAttempt, Head;
    assert Solo(y, s, i, 0) == s && Solo(y, s, i, 1) == Move(y, s, i);
    assert Solo(y, s, i, 2) == Move(y, Solo(y, s, i, 1), i) && Solo(y, s, i, 3) == Move(y, Solo(y, s, i, 2), i);
    if Head(s.client, y.scope, y.duties[i].stepId).Some? {
      FoundIsNamed(y, s.client, Head(s.client, y.scope, y.duties[i].stepId).value);
    }
  }

  lemma FoundIsNamed(y: System, c: Client, id: string)
    requires Consistent(c)
    ensures match GetAttempt(c, y.scope, id)
      case None => true
      case Some(a) => a.attemptId == id && a.scope == y.scope
  {
    assert AttemptKey(y.scope, id) in c.entities ==> Fits(AttemptKey(y.scope, id), c.entities[AttemptKey(y.scope, id)]);
  }

  /** From the attempt to the end: two accesses. */
  lemma ObservesAlone(y: System, s: State, i: nat)
    requires i in y.duties && y.duties[i].Reconcile? && At(s, i).Observing? && At(s, i).attempt.scope == y.scope
    ensures var client := ObservedIn(s.client, Observed(At(s, i).attempt, y.duties[i].record, y.duties[i].fixture));
      Stands(Solo(y, s, i, 2), i, client, s.ledgers, s.lock, s.log, Ended)
  {
    hide Put, SetHead, HeadAfterObservation, ObservedStatus;
    assert Solo(y, s, i, 0) == s && Solo(y, s, i, 1) == Move(y, s, i);
    assert Solo(y, s, i, 2) == Move(y, Solo(y, s, i, 1), i);
  }

  /** Undisturbed, the five accesses of a reconciliation amount to the adapter's operation. */
  lemma AloneIsReconciled(y: System, s: State, i: nat)
    requires i in y.duties && y.duties[i].Reconcile? && At(s, i) == Ready && Consistent(s.client)
    ensures var client := match Reconcilable(s.client, y.scope, y.duties[i].stepId)
      case None => s.client
      case Some(a) => ObservedIn(s.client, Observed(a, y.duties[i].record, y.duties[i].fixture));
      Stands(Solo(y, s, i, 5), i, client, s.ledgers, s.lock, s.log, Ended)
  {
    hide Solo, Move, Reconcilable, ObservedIn, Observed, Consistent;
    LooksAlone(y, s, i);
    if Reconcilable(s.client, y.scope, y.duties[i].stepId).None? {
      EndedStays(y, s, i, 3, 5);
    } else {
      ObservesAlone(y, Solo(y, s, i, 3), i);
      SoloAgain(y, s, i, 3, 2);
    }
  }

  /** Undisturbed, the four accesses of a finalization amount to the adapter's operation. */
  lemma AloneIsFinalized(y: System, s: State, i: nat)
    requires i in y.duties && y.duties[i].Finalize? && At(s, i) == Ready
    ensures var f := y.duties[i].closing;
      var a := GetAttempt(s.client, y.scope, f.attemptId);
      var client := if a.Some? && Closable(a.value, y.scope, f)
        then SetHead(ClosedIn(s.client, y.scope, a.value, f), y.scope, f.stepId, None) else s.client;
      Stands(Solo(y, s, i, 4), i, client, s.ledgers, s.lock, s.log, Ended)
  {
    hide ReconcileMove, ObserveMove, PayMove;
    hide Put, SetHead, ClosedAttempt, ClosedWork, Closable, GetAttempt;
    assert Solo(y, s, i, 0) == s && Solo(y, s, i, 1) == Move(y, s, i);
    assert Solo(y, s, i, 2) == Move(y, Solo(y, s, i, 1), i) && Solo(y, s, i, 3) == Move(y, Solo(y, s, i, 2), i);
    assert Solo(y, s, i, 4) == Move(y, Solo(y, s, i, 3), i);
  }
}
