/** What makes an ambiguous outcome final: exactly the whole discipline.  And what is left of it when observations may
    name their attempts directly: it is final until one does. */
module AcpFinal {
  import opened Options
  import opened Json
  import opened Types
  import opened Core
  import opened Store
  import opened Engine
  import opened Spend
  import opened Reconcile
  import opened Acp
  import opened AcpProtocol
  import opened AcpInvariant
  import opened AcpLaws
  import opened AcpExact

  const UNKNOWN := Response(TimedOut, false, None)

  // ----- an ambiguous outcome -------------------------------------------------------------

  /** The attempt as an ambiguous outcome leaves it. */
  function Lost(o: Order): Attempt {
    IntentOf(o).(status := Ambiguous)
  }

  lemma UnknownIsAmbiguous(o: Order)
    ensures StatusAfter(o, UNKNOWN) == Ambiguous && Marked(IntentOf(o), o, UNKNOWN) == Lost(o)
    ensures HeadAfterMark(Ambiguous, o.attemptId) == Some(o.attemptId)
  {
  }

  /** From the answer to the end, with the schedule up to the last write. */
  lemma MarksLost(d: Discipline, y: System, s: State, i: nat) returns (past: seq<nat>, s': State)
    requires Clear(d, y, [], s) && CostlessPay(y, i) && At(s, i) == InFlight && y.duties[i].response == UNKNOWN
    requires GetAttempt(s.client, HOME, y.duties[i].order.attemptId) == Some(IntentOf(y.duties[i].order))
    ensures MarksAmbiguity(y, Interleave(y, past), i) && Clear(d, y, past + [i], s')
    ensures At(s', i) == Ended && OthersWait(s, s', i)
    ensures var o := y.duties[i].order;
      s'.client == SetHead(Put(s.client, AttemptRecord(Lost(o))), HOME, o.stepId, Some(o.attemptId))
  {
    hide Solvent, Reaches, Calm, GetAttempt, Put, SetHead, IntentOf, Marked, StatusAfter, HeadAfterMark, Lost, Move;
    hide Allowed;
    var o := y.duties[i].order;
    UnknownIsAmbiguous(o);
    MarksTwice(y, s, i);
    SoloReaches(d, y, [], s, i, 2);
    var mid := Solo(y, s, i, 2);
    past := PastOf(d, y, mid);
    s' := Move(y, mid, i);
    Freed(y, mid, i);
    GoesOn(d, y, s, mid, i, past);
    MovesOwnPhase(y, mid, i);
    StillCalm(d, y, s, s', i);
  }

  lemma MarksTwice(y: System, s: State, i: nat)
    requires IsPay(y, i) && At(s, i) == InFlight && y.scope == HOME
    requires GetAttempt(s.client, HOME, y.duties[i].order.attemptId) == Some(IntentOf(y.duties[i].order))
    ensures var o, r, s' := y.duties[i].order, y.duties[i].response, Solo(y, s, i, 2);
      && s'.client == Put(s.client, AttemptRecord(Marked(IntentOf(o), o, r)))
      && At(s', i) == Releasing(o.stepId, HeadAfterMark(StatusAfter(o, r), o.attemptId))
      && s'.lock == s.lock && s'.ledgers == s.ledgers
  {
    hide Put, SetHead, IntentOf, Marked, StatusAfter, HeadAfterMark, GetAttempt;
    hide ReconcileMove, ObserveMove, FinalizeMove, Enter, Check, Book, Intend, Persist;
    assert Solo(y, s, i, 0) == s && Solo(y, s, i, 1) == Move(y, s, i);
    assert Solo(y, s, i, 2) == Move(y, Solo(y, s, i, 1), i);
  }

  lemma PastOf(d: Discipline, y: System, s: State) returns (past: seq<nat>)
    requires Reaches(d, y, [], s)
    ensures Orderly(d, y, past) && Interleave(y, past) == s
  {
    hide Orderly, Interleave;
    var more :| Orderly(d, y, [] + more) && Interleave(y, [] + more) == s;
    past := [] + more;
  }

  /** The last write. */
  lemma Freed(y: System, s: State, i: nat)
    requires i in y.duties && At(s, i).Releasing?
    ensures Move(y, s, i) == To(s.(client := SetHead(s.client, y.scope, At(s, i).stepId, At(s, i).head)), i, Ended)
  {
    hide PayMove, ReconcileMove, ObserveMove, FinalizeMove, SetHead;
  }

  /** While nobody else is inside a section, the thread's next move is orderly. */
  lemma GoesOn(d: Discipline, y: System, s: State, t: State, i: nat, past: seq<nat>)
    requires Calm(d, y, s) && IsPay(y, i) && forall j: nat :: j != i ==> At(t, j) == At(s, j)
    requires Orderly(d, y, past) && Interleave(y, past) == t
    ensures Reaches(d, y, past + [i], Move(y, t, i))
  {
    hide Move, Inside, Calm;
    NobodyElseInside(d, y, s, t, i);
    assert !Intrudes(d, y, t, i);
    assert (past + [i])[..|past + [i]| - 1] == past;
    assert past + [i] + [] == past + [i];
    assert Orderly(d, y, past + [i] + []) && Interleave(y, past + [i] + []) == Move(y, t, i);
  }

  lemma StillCalm(d: Discipline, y: System, s: State, s': State, i: nat)
    requires Calm(d, y, s) && At(s', i) == Ended && forall j: nat :: j != i ==> At(s', j) == At(s, j)
    ensures Calm(d, y, s')
  {
    NobodyElseInside(d, y, s, s', i);
  }

  /** The step as an ambiguous outcome leaves it. */
  lemma LostReads(c: Client, o: Order)
    requires o.scope == HOME
    ensures var c' := SetHead(Put(c, AttemptRecord(Lost(o))), HOME, o.stepId, Some(o.attemptId));
      && GetAttempt(c', HOME, o.attemptId) == Some(Lost(o)) && Head(c', HOME, o.stepId) == Some(o.attemptId)
      && (forall id :: id != o.attemptId ==> GetAttempt(c', HOME, id) == GetAttempt(c, HOME, id))
      && (forall other :: other != o.stepId ==> Head(c', HOME, other) == Head(c, HOME, other))
  {
  }

  // ----- every habit is needed ------------------------------------------------------------

  /** Some schedule that keeps the habits leads from an ambiguous outcome of thread `i` to a state in which its step is
      no longer stuck. */
  ghost predicate Unsettles(d: Discipline, y: System, past: seq<nat>, i: nat, s: State) {
    && Disciplined(d, y) && MarksAmbiguity(y, Interleave(y, past), i) && Reaches(d, y, past + [i], s)
    && !Stuck(y, s.client, y.duties[i].order.stepId, y.duties[i].order.attemptId)
  }

  lemma OtherHead(y: System, s: State, stepId: string, id: string)
    requires Head(s.client, y.scope, stepId) != Some(id)
    ensures !Stuck(y, s.client, stepId, id)
  {
  }

  lemma OtherAttempt(y: System, s: State, stepId: string, id: string)
    requires GetAttempt(s.client, y.scope, id).Some? && GetAttempt(s.client, y.scope, id).value.status != Ambiguous
    ensures !Stuck(y, s.client, stepId, id)
  {
  }

  const LOST_THEN_SIGNED := System(HOME, map[
    0 := Pay(Costless(CreateJob, "a", "s", SIGMA), UNKNOWN),
    1 := Pay(Costless(CreateJob, "b", "s", TAU), FAILURE)])

  lemma LostThenSignedIsDisciplined()
    ensures Disciplined(FULL.(oneSignature := false), LOST_THEN_SIGNED)
  {
  }

  /** A payment under another signature takes the step. */
  lemma AnotherSignatureUnsettles() returns (past: seq<nat>, s: State)
    ensures Unsettles(FULL.(oneSignature := false), LOST_THEN_SIGNED, past, 0, s)
  {
    hide Disciplined, Reaches, Calm, Solvent, Intended, Head, GetAttempt, Put, SetHead, Lost, Stuck, Interleave;
    hide MarksAmbiguity;
    var d, y := FULL.(oneSignature := false), LOST_THEN_SIGNED;
    LostThenSignedIsDisciplined();
    StartIsClear(d, y);
    var s1 := Sends(d, y, [], START, 0);
    IntendedReads(START.client, y.duties[0].order);
    var s2;
    past, s2 := MarksLost(d, y, s1, 0);
    LostReads(s1.client, y.duties[0].order);
    LostSigned(y.duties[0].order);
    s := Sends(d, y, past + [0], s2, 1);
    IntendedReads(s2.client, y.duties[1].order);
    OtherHead(y, s, "s", "a");
  }

  lemma LostSigned(o: Order)
    ensures Lost(o).inputSignature == o.signature && Lost(o).status == Ambiguous
  {
  }

  const LOST_THEN_SHARED := System(HOME, map[
    0 := Pay(Costless(CreateJob, "a", "s", SIGMA), UNKNOWN),
    1 := Pay(Costless(CreateJob, "a", "t", TAU), FAILURE)])

  lemma LostThenSharedIsDisciplined()
    ensures Disciplined(FULL.(ownedIds := false), LOST_THEN_SHARED)
  {
  }

  /** A payment on another step overwrites the attempt. */
  lemma AnotherStepUnsettles() returns (past: seq<nat>, s: State)
    ensures Unsettles(FULL.(ownedIds := false), LOST_THEN_SHARED, past, 0, s)
  {
    hide Disciplined, Reaches, Calm, Solvent, Intended, Head, GetAttempt, Put, SetHead, Lost, Stuck, Interleave;
    hide MarksAmbiguity, Duplicate;
    var d, y := FULL.(ownedIds := false), LOST_THEN_SHARED;
    LostThenSharedIsDisciplined();
    StartIsClear(d, y);
    Passes(START.client, y.duties[0].order);
    var s1 := Sends(d, y, [], START, 0);
    IntendedReads(START.client, y.duties[0].order);
    var s2;
    past, s2 := MarksLost(d, y, s1, 0);
    LostReads(s1.client, y.duties[0].order);
    Passes(s2.client, y.duties[1].order);
    s := Sends(d, y, past + [0], s2, 1);
    IntendedReads(s2.client, y.duties[1].order);
    OtherAttempt(y, s, "s", "a");
  }

  const LOST_IN_RELEASE := System(HOME, map[
    0 := Pay(Costless(CreateJob, "a", "s", SIGMA), FAILURE),
    1 := Pay(Costless(CreateJob, "b", "s", SIGMA), UNKNOWN)])

  lemma LostInReleaseIsDisciplined()
    ensures Disciplined(FULL.(wholeMarks := false), LOST_IN_RELEASE)
  {
  }

  /** The late release of an earlier, failed attempt clears the head. */
  lemma LateReleaseUnsettles() returns (past: seq<nat>, s: State)
    ensures Unsettles(FULL.(wholeMarks := false), LOST_IN_RELEASE, past, 1, s)
  {
    hide Disciplined, Reaches, Calm, Solvent, Intended, Head, GetAttempt, Put, SetHead, Lost, Stuck, Interleave;
    hide MarksAmbiguity, Duplicate;
    var d, y := FULL.(wholeMarks := false), LOST_IN_RELEASE;
    LostInReleaseIsDisciplined();
    StartIsClear(d, y);
    Passes(START.client, y.duties[0].order);
    var s1 := Sends(d, y, [], START, 0);
    IntendedReads(START.client, y.duties[0].order);
    var s2 := HalfMarks(d, y, [], s1, 0);
    SavedReads(s1.client, IntentOf(y.duties[0].order).(status := Failed));
    Passes(s2.client, y.duties[1].order);
    var s3 := Sends(d, y, [], s2, 1);
    IntendedReads(s2.client, y.duties[1].order);
    var s4;
    past, s4 := MarksLost(d, y, s3, 1);
    s := Releases(d, y, past + [1], s4, 0);
    ReleasedReads(s4.client, "s", None);
    OtherHead(y, s, "s", "b");
  }

  const LOST_IN_OBSERVATION := System(HOME, map[
    0 := Pay(Costless(CreateJob, "a", "s", SIGMA), Success()),
    1 := Duty.Reconcile("s", JobAs("funded"), false),
    2 := Pay(Costless(Fund, "b", "s", SIGMA), UNKNOWN)])

  lemma LostInObservationIsDisciplined()
    ensures Disciplined(FULL.(wholeObservations := false), LOST_IN_OBSERVATION)
  {
  }

  lemma CreatedObserved()
    ensures var b := Observed(CreatedAttempt(), JobAs("funded"), false);
      b.scope == HOME && b.attemptId == "a" && b.stepId == "s" && HeadAfterObservation(b) == Some("a")
  {
    assert Lower("funded") == "funded";
  }

  /** The provider's answer to an earlier lookup puts the earlier attempt back under the head. */
  lemma StaleObservationUnsettles() returns (past: seq<nat>, s: State)
    ensures Unsettles(FULL.(wholeObservations := false), LOST_IN_OBSERVATION, past, 2, s)
  {
    hide Disciplined, Reaches, Calm, Solvent, Intended, Head, GetAttempt, Put, SetHead, Lost, Stuck, Interleave;
    hide MarksAmbiguity, Duplicate, Observed, HeadAfterObservation, Success;
    var d, y := FULL.(wholeObservations := false), LOST_IN_OBSERVATION;
    LostInObservationIsDisciplined();
    var s1 := Creates(d, y);
    var s2 := Looks(d, y, [], s1, 1, CreatedAttempt());
    Passes(s2.client, y.duties[2].order);
    var s3 := Sends(d, y, [], s2, 2);
    IntendedReads(s2.client, y.duties[2].order);
    var s4;
    past, s4 := MarksLost(d, y, s3, 2);
    LostReads(s3.client, y.duties[2].order);
    var s5 := RecordsLate(d, y, past + [2], s4, 1, CreatedAttempt());
    CreatedObserved();
    s := Releases(d, y, past + [2], s5, 1);
    ReleasedReads(s5.client, "s", Some("a"));
    OtherHead(y, s, "s", "b");
  }

  const LOST_THEN_OBSERVED := System(HOME, map[
    0 := Pay(Costless(CreateJob, "a", "s", SIGMA), UNKNOWN),
    1 := Observe("a", JobAs("funded"), false)])

  lemma LostThenObservedIsDisciplined()
    ensures Disciplined(FULL.(throughHead := false), LOST_THEN_OBSERVED)
  {
  }

  lemma LostObserved(o: Order)
    requires o == Costless(o.action, o.attemptId, o.stepId, o.signature)
    ensures var b := Observed(Lost(o), JobAs("funded"), false);
      b.scope == HOME && b.attemptId == o.attemptId && b.stepId == o.stepId && b.status == Active
  {
    assert Lower("funded") == "funded";
  }

  /** A direct observation resolves the attempt. */
  lemma DirectObservationUnsettles() returns (past: seq<nat>, s: State)
    ensures Unsettles(FULL.(throughHead := false), LOST_THEN_OBSERVED, past, 0, s)
  {
    hide Disciplined, Reaches, Calm, Solvent, Intended, Head, GetAttempt, Put, SetHead, Lost, Stuck, Interleave;
    hide MarksAmbiguity, Duplicate, Observed, HeadAfterObservation;
    var d, y := FULL.(throughHead := false), LOST_THEN_OBSERVED;
    LostThenObservedIsDisciplined();
    StartIsClear(d, y);
    Passes(START.client, y.duties[0].order);
    var s1 := Sends(d, y, [], START, 0);
    IntendedReads(START.client, y.duties[0].order);
    var s2;
    past, s2 := MarksLost(d, y, s1, 0);
    LostReads(s1.client, y.duties[0].order);
    var o := y.duties[0].order;
    s := RecordsDirectly(d, y, past + [0], s2, 1, Lost(o));
    LostObserved(o);
    var b := Observed(Lost(o), JobAs("funded"), false);
    SavedReads(s2.client, b);
    ReleasedReads(Put(s2.client, AttemptRecord(b)), "s", HeadAfterObservation(b));
    OtherAttempt(y, s, "s", "a");
  }

  const LOST_BY_FINALIZATION := System(HOME, map[
    0 := Pay(Costless(CreateJob, "a", "s", SIGMA), Success()),
    1 := Pay(Costless(Fund, "b", "s", SIGMA), UNKNOWN),
    2 := Finalize(DoneClosing())])

  lemma LostByFinalizationIsDisciplined(d: Discipline)
    ensures Disciplined(d, LOST_BY_FINALIZATION)
  {
  }

  /** Finalizing an earlier attempt clears the head. */
  lemma StaleFinalizationUnsettles() returns (past: seq<nat>, s: State)
    ensures Unsettles(FULL.(headFinalizes := false), LOST_BY_FINALIZATION, past, 1, s)
  {
    hide Disciplined, Reaches, Calm, Solvent, Intended, Head, GetAttempt, Put, SetHead, Lost, Stuck, Interleave;
    hide MarksAmbiguity, Duplicate, ClosedIn, Closable, Success, DoneClosing;
    var d, y := FULL.(headFinalizes := false), LOST_BY_FINALIZATION;
    LostByFinalizationIsDisciplined(d);
    DoneNames();
    CreatedIsClosable();
    var s1 := Creates(d, y);
    Passes(s1.client, y.duties[1].order);
    var s2 := Sends(d, y, [], s1, 1);
    IntendedReads(s1.client, y.duties[1].order);
    var s3;
    past, s3 := MarksLost(d, y, s2, 1);
    LostReads(s2.client, y.duties[1].order);
    s := Finalizes(d, y, past + [1], s3, 2, CreatedAttempt());
    ReleasedReads(ClosedIn(s3.client, HOME, CreatedAttempt(), DoneClosing()), "s", None);
    OtherHead(y, s, "s", "b");
  }

  /** So does a finalization during which the step was taken. */
  lemma SlowFinalizationUnsettles() returns (past: seq<nat>, s: State)
    ensures Unsettles(FULL.(wholeFinalizations := false), LOST_BY_FINALIZATION, past, 1, s)
  {
    hide Disciplined, Reaches, Calm, Solvent, Intended, Head, GetAttempt, Put, SetHead, Lost, Stuck, Interleave;
    hide MarksAmbiguity, Duplicate, ClosedIn, Closable, Success, DoneClosing;
    var d, y := FULL.(wholeFinalizations := false), LOST_BY_FINALIZATION;
    LostByFinalizationIsDisciplined(d);
    DoneNames();
    CreatedIsClosable();
    var s1 := Creates(d, y);
    var s2 := Begins(d, y, [], s1, 2, CreatedAttempt());
    Passes(s2.client, y.duties[1].order);
    var s3 := Sends(d, y, [], s2, 1);
    IntendedReads(s2.client, y.duties[1].order);
    var s4;
    past, s4 := MarksLost(d, y, s3, 1);
    s := Concludes(d, y, past + [1], s4, 2);
    ReleasedReads(ClosedIn(s4.client, HOME, CreatedAttempt(), DoneClosing()), "s", None);
    OtherHead(y, s, "s", "b");
  }

  lemma OneMissingUnsettles(d: Discipline) returns (e: Discipline, y: System, past: seq<nat>, i: nat, s: State)
    requires d != FULL
    ensures Weaker(d, e) && Unsettles(e, y, past, i, s)
  {
    hide Unsettles;
    if !d.wholeMarks {
      e, y, i := FULL.(wholeMarks := false), LOST_IN_RELEASE, 1;
      past, s := LateReleaseUnsettles();
    } else if !d.wholeObservations {
      e, y, i := FULL.(wholeObservations := false), LOST_IN_OBSERVATION, 2;
      past, s := StaleObservationUnsettles();
    } else if !d.wholeFinalizations {
      e, y, i := FULL.(wholeFinalizations := false), LOST_BY_FINALIZATION, 1;
      past, s := SlowFinalizationUnsettles();
    } else if !d.headFinalizes {
      e, y, i := FULL.(headFinalizes := false), LOST_BY_FINALIZATION, 1;
      past, s := StaleFinalizationUnsettles();
    } else if !d.throughHead {
      e, y, i := FULL.(throughHead := false), LOST_THEN_OBSERVED, 0;
      past, s := DirectObservationUnsettles();
    } else if !d.oneSignature {
      e, y, i := FULL.(oneSignature := false), LOST_THEN_SIGNED, 0;
      past, s := AnotherSignatureUnsettles();
    } else {
      e, y, i := FULL.(ownedIds := false), LOST_THEN_SHARED, 0;
      past, s := AnotherStepUnsettles();
    }
  }

  /** On this schedule, the ambiguous outcome that thread `i` marks is final. */
  ghost predicate StaysFinal(d: Discipline, y: System, moves: seq<nat>, i: nat, more: seq<nat>) {
    Keeps(d, y, moves + [i] + more) && MarksAmbiguity(y, Interleave(y, moves), i) ==>
      StaysStuck(y, Interleave(y, moves + [i]), Interleave(y, moves + [i] + more), i)
  }

  /** Of all sets of habits, exactly the whole discipline makes an ambiguous outcome final on every schedule that keeps
      them. */
  lemma AmbiguityIsFinalExactly(d: Discipline)
    ensures (forall y, moves, i, more :: StaysFinal(d, y, moves, i, more)) <==> d == FULL
  {
    hide Disciplined, Interleave, Orderly, Stuck, MarksAmbiguity;
    if d == FULL {
      forall y, moves, i, more ensures StaysFinal(d, y, moves, i, more) {
        if Keeps(d, y, moves + [i] + more) && MarksAmbiguity(y, Interleave(y, moves), i) {
          AmbiguityIsFinal(y, moves, i, more);
        }
      }
    } else {
      var e, y, past, i, s := OneMissingUnsettles(d);
      var more :| Orderly(e, y, past + [i] + more) && Interleave(y, past + [i] + more) == s;
      WeakerDisciplined(d, e, y);
      WeakerKeeps(d, e, y, past + [i] + more);
      assert !StaysFinal(d, y, past, i, more);
    }
  }

  // ----- until an observation -------------------------------------------------------------

  /** Without the operations that observe an attempt directly. */
  function Unobserved(y: System): System {
    y.(duties := map i | i in y.duties && !y.duties[i].Observe? :: y.duties[i])
  }

  /** None of the schedule's moves is part of a direct observation. */
  ghost predicate NobodyObserves(y: System, moves: seq<nat>) {
    forall k :: 0 <= k < |moves| && moves[k] in y.duties ==> !y.duties[moves[k]].Observe?
  }

  lemma SameMove(y: System, s: State, i: nat)
    requires i in y.duties ==> !y.duties[i].Observe?
    ensures Move(Unobserved(y), s, i) == Move(y, s, i)
  {
    hide PayMove, ReconcileMove, FinalizeMove, Release;
    var z := Unobserved(y);
    if i in y.duties {
      assert z.duties[i] == y.duties[i];
      SameMoves(y, z, s, i);
    }
  }

  lemma SameMoves(y: System, z: System, s: State, i: nat)
    requires z.scope == y.scope
    ensures forall o, r :: PayMove(z, s, i, o, r) == PayMove(y, s, i, o, r)
    ensures forall stepId, r, fixture ::
      ReconcileMove(z, s, i, stepId, r, fixture) == ReconcileMove(y, s, i, stepId, r, fixture)
    ensures forall f :: FinalizeMove(z, s, i, f) == FinalizeMove(y, s, i, f)
    ensures forall stepId, head :: Release(z, s, i, stepId, head) == Release(y, s, i, stepId, head)
  {
    hide Reserve, Put, SetHead, Stops, Closable, Observed, Marked, StatusAfter, HeadAfterMark, HeadAfterObservation;
    hide GetAttempt, Head, IntentOf, ClosedAttempt, ClosedWork, SpendingOf;
  }

  lemma SameAllowed(d: Discipline, y: System, s: State, i: nat)
    requires d == FULL.(throughHead := false) && Allowed(d, y, s, i) && (i in y.duties ==> !y.duties[i].Observe?)
    ensures Allowed(FULL, Unobserved(y), s, i)
  {
    hide Move;
    var z := Unobserved(y);
    SameMove(y, s, i);
    if i in z.duties && Move(z, s, i) != s {
      forall j | j != i && Inside(FULL, z, s, j) ensures StepAt(z, s, j) != StepAt(z, s, i) {
        assert Inside(d, y, s, j) && StepAt(y, s, j) == StepAt(z, s, j) && StepAt(y, s, i) == StepAt(z, s, i);
        assert Move(y, s, i) != s;
      }
    }
  }

  lemma {:induction false} SameStates(y: System, moves: seq<nat>)
    requires NobodyObserves(y, moves)
    ensures Interleave(Unobserved(y), moves) == Interleave(y, moves)
  {
    hide Move, Unobserved;
    if moves != [] {
      SameStates(y, moves[..|moves| - 1]);
      SameMove(y, Interleave(y, moves[..|moves| - 1]), moves[|moves| - 1]);
    }
  }

  lemma {:induction false} SameSchedule(d: Discipline, y: System, moves: seq<nat>)
    requires d == FULL.(throughHead := false) && Orderly(d, y, moves) && NobodyObserves(y, moves)
    ensures Orderly(FULL, Unobserved(y), moves)
  {
    hide Move, Allowed, Unobserved;
    if moves != [] {
      var front, i := moves[..|moves| - 1], moves[|moves| - 1];
      SameSchedule(d, y, front);
      SameStates(y, front);
      SameAllowed(d, y, Interleave(y, front), i);
    }
  }

  lemma NobodyObservesFront(y: System, moves: seq<nat>, more: seq<nat>)
    requires NobodyObserves(y, moves + more)
    ensures NobodyObserves(y, moves)
  {
    assert forall k :: 0 <= k < |moves| ==> moves[k] == (moves + more)[k];
  }

  lemma UnobservedIsDisciplined(d: Discipline, y: System)
    requires d == FULL.(throughHead := false) && Disciplined(d, y)
    ensures Disciplined(FULL, Unobserved(y))
  {
    var z := Unobserved(y);
    forall i, j | IsPay(z, i) && IsPay(z, j) && z.duties[i].order.stepId == z.duties[j].order.stepId
      ensures z.duties[i].order.signature == z.duties[j].order.signature
    {
      assert IsPay(y, i) && IsPay(y, j);
    }
    forall i, j | IsPay(z, i) && IsPay(z, j) && z.duties[i].order.attemptId == z.duties[j].order.attemptId
      ensures z.duties[i].order.stepId == z.duties[j].order.stepId
    {
      assert IsPay(y, i) && IsPay(y, j);
    }
  }

  lemma StaysStuckThere(y: System, s: State, s': State, i: nat)
    requires IsPay(Unobserved(y), i) && StaysStuck(Unobserved(y), s, s', i)
    ensures IsPay(y, i) && StaysStuck(y, s, s', i)
  {
    hide Stuck;
    var z, o := Unobserved(y), y.duties[i].order;
    forall k | |s.log| <= k < |s'.log| && IsPay(y, s'.log[k]) ensures StepOf(y, s'.log[k]) != o.stepId {
      assert IsPay(z, s'.log[k]);
    }
    SameStuck(y, z, s'.client, o.stepId, o.attemptId);
  }

  lemma SameStuck(y: System, z: System, c: Client, stepId: string, id: string)
    requires z.scope == y.scope
    ensures Stuck(z, c, stepId, id) <==> Stuck(y, c, stepId, id)
  {
  }

  /** With every other habit kept, an ambiguous outcome is final for as long as nobody has observed directly. */
  lemma AmbiguityIsFinalUntilObserved(y: System, moves: seq<nat>, i: nat, more: seq<nat>)
    requires Keeps(FULL.(throughHead := false), y, moves + [i] + more) && MarksAmbiguity(y, Interleave(y, moves), i)
    requires NobodyObserves(y, moves + [i] + more)
    ensures StaysStuck(y, Interleave(y, moves + [i]), Interleave(y, moves + [i] + more), i)
  {
    hide Disciplined, Interleave, Orderly, Unobserved, NobodyObserves, StaysStuck, StatusAfter;
    var d, z := FULL.(throughHead := false), Unobserved(y);
    UnobservedIsDisciplined(d, y);
    SameSchedule(d, y, moves + [i] + more);
    SameStates(y, moves + [i] + more);
    NobodyObservesFront(y, moves + [i], more);
    NobodyObservesFront(y, moves, [i]);
    SameStates(y, moves);
    SameStates(y, moves + [i]);
    KeptPay(y, i);
    AmbiguityIsFinal(z, moves, i, more);
    StaysStuckThere(y, Interleave(y, moves + [i]), Interleave(y, moves + [i] + more), i);
  }

  lemma KeptPay(y: System, i: nat)
    requires IsPay(y, i)
    ensures IsPay(Unobserved(y), i) && Unobserved(y).duties[i] == y.duties[i]
  {
  }
}
