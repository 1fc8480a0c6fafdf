/** Every habit of the discipline is needed: give up any one, keep all the others, and some schedule of real operations
    has two commands for one step in flight. */
module AcpExact {
  import opened Options
  import opened Json
  import opened Types
  import opened Core
  import opened Store
  import opened Engine
  import opened Spend
  import opened Reconcile
  import opened Acp
  import opened AcpProtocol
  import opened AcpLaws

  // ----- orders that cost nothing ---------------------------------------------------------

  const FREE := Approval(PLAN, HOME, {"s", "t"}, "provider", "offering", 1,
    {"create_job", "fund", "complete", "reject"}, "USDC", 0, None, 1)

  const SIGMA := Signature("input", "s")

  const TAU := Signature("input", "t")

  const WANTED := Signature("requirements", "")

  function Costless(action: Action, attemptId: string, stepId: string, signature: Signature): Order {
    Order(action, attemptId, HOME, "w", stepId, signature, PLAN, FREE, "provider", "offering", "name", WANTED, 1,
      Some(0), 0)
  }

  function JobAs(lifecycle: string): JobRecord {
    JobRecord("job", 1, lifecycle, false, Some("provider"), Some("offering"), Some("name"), Some(WANTED), [])
  }

  const FAILURE := Response(CommandFailed, false, None)

  function Success(): Response {
    Response(CommandSucceeded, false, Some(JobAs("open")))
  }

  predicate Solvent(ls: Ledgers) {
    var key := SpendKey(HOME, PLAN);
    key in ls ==> Owns(ls[key], HOME, PLAN) && ls[key].currency == "USDC" && ls[key].committed == 0
  }

  ghost predicate CostlessPay(y: System, i: nat) {
    && IsPay(y, i)
    && var o := y.duties[i].order;
    o == Costless(o.action, o.attemptId, o.stepId, o.signature) && (o.stepId == "s" || o.stepId == "t")
  }

  lemma SolventReserves(ls: Ledgers, o: Order)
    requires Solvent(ls) && (o.stepId == "s" || o.stepId == "t")
    requires o == Costless(o.action, o.attemptId, o.stepId, o.signature)
    ensures Reserve(ls, SpendingOf(o)).Some? && Solvent(Reserve(ls, SpendingOf(o)).value)
  {
    hide SpendKey, ReservationId;
    assert ActionName(o.action) in FREE.actions;
  }

  // ----- schedules ------------------------------------------------------------------------

  /** A schedule that begins with `past` and keeps the discipline leads to this state. */
  ghost predicate Reaches(d: Discipline, y: System, past: seq<nat>, s: State) {
    exists more :: Orderly(d, y, past + more) && Interleave(y, past + more) == s
  }

  /** Nobody is inside a protected section. */
  ghost predicate Calm(d: Discipline, y: System, s: State) {
    forall j :: !Inside(d, y, s, j)
  }

  /** A finalization that is to begin is at the head, if the discipline asks for it. */
  predicate Entitled(d: Discipline, y: System, s: State, i: nat) {
    d.headFinalizes && i in y.duties && y.duties[i].Finalize? && At(s, i) == Ready ==>
      Head(s.client, y.scope, y.duties[i].closing.stepId) == Some(y.duties[i].closing.attemptId)
  }

  lemma ReachesStart(d: Discipline, y: System)
    ensures Reaches(d, y, [], START)
  {
    assert Orderly(d, y, [] + []) && Interleave(y, [] + []) == START;
  }

  lemma ReachesNext(d: Discipline, y: System, past: seq<nat>, s: State, i: nat)
    requires Reaches(d, y, past, s) && Allowed(d, y, s, i)
    ensures Reaches(d, y, past, Move(y, s, i))
  {
    hide Move, Allowed;
    var more :| Orderly(d, y, past + more) && Interleave(y, past + more) == s;
    var longer := past + (more + [i]);
    assert longer[..|longer| - 1] == past + more;
    assert Orderly(d, y, longer) && Interleave(y, longer) == Move(y, s, i);
  }

  /** Once it has begun, a thread is never ready again. */
  lemma NeverReadyAgain(y: System, s: State, i: nat)
    ensures At(s, i) != Ready ==> At(Move(y, s, i), i) != Ready
    ensures i in y.duties && y.duties[i].Finalize? ==> At(Move(y, s, i), i) != Ready
  {
    hide Reserve, Put, SetHead, Stops, Closable, Observed, Marked, StatusAfter, HeadAfterMark, HeadAfterObservation;
    hide GetAttempt, Head, IntentOf, ClosedAttempt, ClosedWork, SpendingOf;
  }

  /** While nobody else is inside a section, a thread may go on. */
  lemma {:induction false} SoloReaches(d: Discipline, y: System, past: seq<nat>, s: State, i: nat, n: nat)
    requires Reaches(d, y, past, s) && Calm(d, y, s) && Entitled(d, y, s, i)
    ensures var s' := Solo(y, s, i, n);
      && Reaches(d, y, past, s') && Entitled(d, y, s', i)
      && (forall j: nat :: j != i ==> At(s', j) == At(s, j))
    ensures !Inside(d, y, Solo(y, s, i, n), i) ==> Calm(d, y, Solo(y, s, i, n))
  {
    hide Move, Reaches, Inside;
    if n == 0 {
      assert Solo(y, s, i, 0) == s;
    } else {
      SoloReaches(d, y, past, s, i, n - 1);
      var t := Solo(y, s, i, n - 1);
      assert Solo(y, s, i, n) == Move(y, t, i);
      MovesOwnPhase(y, t, i);
      NeverReadyAgain(y, t, i);
      NobodyElseInside(d, y, s, t, i);
      assert !Intrudes(d, y, t, i);
      ReachesNext(d, y, past, t, i);
    }
    NobodyElseInside(d, y, s, Solo(y, s, i, n), i);
  }

  lemma NobodyElseInside(d: Discipline, y: System, s: State, t: State, i: nat)
    requires Calm(d, y, s) && forall j: nat :: j != i ==> At(t, j) == At(s, j)
    ensures forall j: nat :: j != i ==> !Inside(d, y, t, j)
  {
    forall j: nat | j != i ensures !Inside(d, y, t, j) {
      assert !Inside(d, y, s, j) && At(t, j) == At(s, j);
    }
  }

  /** Reached by an orderly schedule, with nobody inside a section or the lock, and room in the ledger. */
  ghost predicate Clear(d: Discipline, y: System, past: seq<nat>, s: State) {
    Reaches(d, y, past, s) && Calm(d, y, s) && s.lock == None && Solvent(s.ledgers) && y.scope == HOME
  }

  ghost predicate OthersWait(s: State, s': State, i: nat) {
    forall j: nat :: j != i ==> At(s', j) == At(s, j)
  }

  lemma StartIsClear(d: Discipline, y: System)
    requires y.scope == HOME
    ensures Clear(d, y, [], START)
    ensures forall stepId :: Head(START.client, HOME, stepId) == None
    ensures forall id :: GetAttempt(START.client, HOME, id) == None
  {
    ReachesStart(d, y);
  }

  // ----- what the threads do --------------------------------------------------------------

  /** From the beginning to the command. */
  lemma Sends(d: Discipline, y: System, past: seq<nat>, s: State, i: nat) returns (s': State)
    requires Clear(d, y, past, s) && CostlessPay(y, i) && At(s, i) == Ready
    requires !Duplicate(s.client, HOME, y.duties[i].order)
    ensures Clear(d, y, past, s') && At(s', i) == InFlight && OthersWait(s, s', i)
    ensures s'.client == Intended(s.client, y.duties[i].order)
  {
    hide Reserve, Duplicate, Intended, Solvent, SpendingOf, Reaches, Solo, Calm;
    hide ReconcileMove, ObserveMove, FinalizeMove, Release, Enter, Check, Intend, Persist, Return, Mark;
    var k := ChecksAlone(y, s, i);
    SolventReserves(s.ledgers, y.duties[i].order);
    SoloNext(y, s, i, k);
    SendsAlone(y, Solo(y, s, i, k + 1), i);
    SoloAgain(y, s, i, k + 1, 3);
    SoloReaches(d, y, past, s, i, k + 4);
    s' := Solo(y, s, i, k + 4);
  }

  /** From the command to the end. */
  lemma Marks(d: Discipline, y: System, past: seq<nat>, s: State, i: nat) returns (s': State)
    requires Clear(d, y, past, s) && CostlessPay(y, i) && At(s, i) == InFlight
    requires GetAttempt(s.client, HOME, y.duties[i].order.attemptId) == Some(IntentOf(y.duties[i].order))
    ensures Clear(d, y, past, s') && At(s', i) == Ended && OthersWait(s, s', i)
    ensures var o, r := y.duties[i].order, y.duties[i].response;
      s'.client == MarkedIn(s.client, IntentOf(o), o, r)
  {
    hide MarkedIn, Solvent, Solo, Reaches, Calm, IntentOf;
    MarksAlone(y, s, i);
    SoloReaches(d, y, past, s, i, 3);
    s' := Solo(y, s, i, 3);
  }

  /** From the command to a failed attempt, before the head is released. */
  lemma HalfMarks(d: Discipline, y: System, past: seq<nat>, s: State, i: nat) returns (s': State)
    requires Clear(d, y, past, s) && CostlessPay(y, i) && At(s, i) == InFlight && !d.wholeMarks
    requires y.duties[i].order.action == CreateJob && y.duties[i].response == FAILURE
    requires GetAttempt(s.client, HOME, y.duties[i].order.attemptId) == Some(IntentOf(y.duties[i].order))
    ensures Clear(d, y, past, s') && At(s', i) == Releasing(y.duties[i].order.stepId, None) && OthersWait(s, s', i)
    ensures s'.client == Put(s.client, AttemptRecord(IntentOf(y.duties[i].order).(status := Failed)))
  {
    hide Solvent, Put, Reaches, Calm, GetAttempt;
    hide ReconcileMove, ObserveMove, FinalizeMove, Release, Enter, Check, Book, Intend, Persist;
    assert Solo(y, s, i, 0) == s && Solo(y, s, i, 1) == Move(y, s, i);
    assert Solo(y, s, i, 2) == Move(y, Solo(y, s, i, 1), i);
    SoloReaches(d, y, past, s, i, 2);
    s' := Solo(y, s, i, 2);
  }

  lemma Releases(d: Discipline, y: System, past: seq<nat>, s: State, i: nat) returns (s': State)
    requires Clear(d, y, past, s) && i in y.duties && At(s, i).Releasing?
    ensures Clear(d, y, past, s') && At(s', i) == Ended && OthersWait(s, s', i)
    ensures s'.client == SetHead(s.client, HOME, At(s, i).stepId, At(s, i).head)
  {
    hide Solvent, SetHead, Reaches, Calm, PayMove, ReconcileMove, ObserveMove, FinalizeMove;
    assert Solo(y, s, i, 0) == s && Solo(y, s, i, 1) == Move(y, s, i);
    SoloReaches(d, y, past, s, i, 1);
    s' := Solo(y, s, i, 1);
  }

  lemma SavedReads(c: Client, a: Attempt)
    requires a.scope == HOME
    ensures var c' := Put(c, AttemptRecord(a));
      && (forall id :: GetAttempt(c', HOME, id) == if id == a.attemptId then Some(a) else GetAttempt(c, HOME, id))
      && (forall other :: Head(c', HOME, other) == Head(c, HOME, other))
  {
  }

  lemma ReleasedReads(c: Client, stepId: string, head: Option<string>)
    ensures var c' := SetHead(c, HOME, stepId, head);
      && (forall id :: GetAttempt(c', HOME, id) == GetAttempt(c, HOME, id))
      && (forall other :: Head(c', HOME, other) == if other == stepId then head else Head(c, HOME, other))
  {
  }

  /** A clear head, or one whose attempt does not stop the action, lets a payment pass. */
  lemma Passes(c: Client, o: Order)
    requires match Head(c, HOME, o.stepId)
      case None => true
      case Some(id) => GetAttempt(c, HOME, id).Some? && !Stops(o.action, GetAttempt(c, HOME, id).value.status)
    ensures !Duplicate(c, HOME, o)
  {
  }

  /** Two payments on one step in flight. */
  lemma TwoInFlight(y: System, s: State, i: nat, j: nat)
    requires i != j && IsPay(y, i) && IsPay(y, j) && At(s, i) == InFlight && At(s, j) == InFlight
    requires y.duties[i].order.stepId == y.duties[j].order.stepId
    ensures !OneInFlight(y, s)
  {
    assert Sending(y, s, i, y.duties[i].order.stepId) && Sending(y, s, j, y.duties[i].order.stepId);
  }

  // ----- two signatures -------------------------------------------------------------------

  const TWO_SIGNATURES := System(HOME, map[
    0 := Pay(Costless(CreateJob, "a", "s", SIGMA), FAILURE),
    1 := Pay(Costless(CreateJob, "b", "s", TAU), FAILURE)])

  /** Payments of one step under two signatures do not stop each other. */
  lemma TwoSignaturesOverlap() returns (s: State)
    ensures var d := FULL.(oneSignature := false);
      Disciplined(d, TWO_SIGNATURES) && Reaches(d, TWO_SIGNATURES, [], s) && !OneInFlight(TWO_SIGNATURES, s)
  {
    hide Reaches, Calm, Solvent, Intended, Head, GetAttempt;
    var d, y := FULL.(oneSignature := false), TWO_SIGNATURES;
    StartIsClear(d, y);
    var s1 := Sends(d, y, [], START, 0);
    IntendedReads(START.client, y.duties[0].order);
    s := Sends(d, y, [], s1, 1);
    TwoInFlight(y, s, 0, 1);
  }

  // ----- an attempt id on two steps -------------------------------------------------------

  const SHARED_ID := System(HOME, map[
    0 := Pay(Costless(CreateJob, "a", "s", SIGMA), FAILURE),
    1 := Pay(Costless(CreateJob, "a", "t", TAU), FAILURE),
    2 := Pay(Costless(CreateJob, "c", "s", SIGMA), FAILURE)])

  /** The second step's intent overwrites the attempt that guards the first. */
  lemma SharedIdOverlaps() returns (s: State)
    ensures var d := FULL.(ownedIds := false);
      Disciplined(d, SHARED_ID) && Reaches(d, SHARED_ID, [], s) && !OneInFlight(SHARED_ID, s)
  {
    hide Reaches, Calm, Solvent, Intended, Head, GetAttempt;
    var d, y := FULL.(ownedIds := false), SHARED_ID;
    StartIsClear(d, y);
    var s1 := Sends(d, y, [], START, 0);
    IntendedReads(START.client, y.duties[0].order);
    var s2 := Sends(d, y, [], s1, 1);
    IntendedReads(s1.client, y.duties[1].order);
    s := Sends(d, y, [], s2, 2);
    TwoInFlight(y, s, 0, 2);
  }

  // ----- a mark that is broken into -------------------------------------------------------

  const LATE_RELEASE := System(HOME, map[
    0 := Pay(Costless(CreateJob, "a", "s", SIGMA), FAILURE),
    1 := Pay(Costless(CreateJob, "b", "s", SIGMA), FAILURE),
    2 := Pay(Costless(CreateJob, "c", "s", SIGMA), FAILURE)])

  lemma LateReleaseIsDisciplined()
    ensures Disciplined(FULL.(wholeMarks := false), LATE_RELEASE)
  {
  }

  /** The late release of a failed attempt's head sets free a step that another command has taken. */
  lemma LateReleaseOverlaps() returns (s: State)
    ensures var d := FULL.(wholeMarks := false);
      Disciplined(d, LATE_RELEASE) && Reaches(d, LATE_RELEASE, [], s) && !OneInFlight(LATE_RELEASE, s)
  {
    hide Disciplined, Reaches, Calm, Solvent, Put, SetHead, Head, GetAttempt, Intended, Duplicate;
    var d, y := FULL.(wholeMarks := false), LATE_RELEASE;
    LateReleaseIsDisciplined();
    StartIsClear(d, y);
    Passes(START.client, y.duties[0].order);
    var s1 := Sends(d, y, [], START, 0);
    IntendedReads(START.client, y.duties[0].order);
    var s2 := HalfMarks(d, y, [], s1, 0);
    SavedReads(s1.client, IntentOf(y.duties[0].order).(status := Failed));
    Passes(s2.client, y.duties[1].order);
    var s3 := Sends(d, y, [], s2, 1);
    IntendedReads(s2.client, y.duties[1].order);
    var s4 := Releases(d, y, [], s3, 0);
    ReleasedReads(s3.client, "s", None);
    Passes(s4.client, y.duties[2].order);
    s := Sends(d, y, [], s4, 2);
    TwoInFlight(y, s, 1, 2);
  }

  // ----- observations ---------------------------------------------------------------------

  function CreatedAttempt(): Attempt {
    IntentOf(Costless(CreateJob, "a", "s", SIGMA)).(status := Active, jobId := Some("job"), chainId := Some(1))
  }

  lemma CreateIsActive()
    ensures var o := Costless(CreateJob, "a", "s", SIGMA);
      StatusAfter(o, Success()) == Active && Marked(IntentOf(o), o, Success()) == CreatedAttempt()
  {
  }

  /** From the start, thread 0 creates job "job" for attempt "a" of step "s". */
  lemma Creates(d: Discipline, y: System) returns (s: State)
    requires y.scope == HOME
    requires 0 in y.duties && y.duties[0] == Pay(Costless(CreateJob, "a", "s", SIGMA), Success())
    ensures Clear(d, y, [], s) && At(s, 0) == Ended && forall j: nat :: j != 0 ==> At(s, j) == Ready
    ensures Head(s.client, HOME, "s") == Some("a") && GetAttempt(s.client, HOME, "a") == Some(CreatedAttempt())
  {
    hide StatusAfter, Success, Solvent, Reaches, Calm, Marked, SetHead, Put, Intended, GetAttempt, Head;
    var o := Costless(CreateJob, "a", "s", SIGMA);
    StartIsClear(d, y);
    var s1 := Sends(d, y, [], START, 0);
    IntendedReads(START.client, o);
    s := Marks(d, y, [], s1, 0);
    CreateIsActive();
    SavedReads(s1.client, CreatedAttempt());
    ReleasedReads(Put(s1.client, AttemptRecord(CreatedAttempt())), "s", Some("a"));
  }

  /** A live observation of the job as funded, when the attempt has just been taken for a paid action. */
  lemma ObservedAsActive(o: Order)
    requires o == Costless(o.action, o.attemptId, o.stepId, o.signature)
    ensures var b := Observed(IntentOf(o), JobAs("funded"), false);
      && b.status == Active && b.scope == HOME && b.attemptId == o.attemptId && b.stepId == o.stepId
      && HeadAfterObservation(b) == Some(o.attemptId)
  {
    assert Lower("funded") == "funded";
  }

  const STALE_OBSERVATION := System(HOME, map[
    0 := Pay(Costless(CreateJob, "a", "s", SIGMA), Success()),
    1 := Duty.Reconcile("s", JobAs("funded"), false),
    2 := Pay(Costless(Fund, "a", "s", SIGMA), FAILURE),
    3 := Pay(Costless(Fund, "b", "s", SIGMA), FAILURE)])

  /** A reconciliation that has found its attempt and is waiting for the provider. */
  lemma Looks(d: Discipline, y: System, past: seq<nat>, s: State, i: nat, a: Attempt) returns (s': State)
    requires Clear(d, y, past, s) && !d.wholeObservations
    requires i in y.duties && y.duties[i].Reconcile? && At(s, i) == Ready
    requires Reconcilable(s.client, HOME, y.duties[i].stepId) == Some(a)
    ensures Clear(d, y, past, s') && At(s', i) == Looked(a.attemptId) && s'.client == s.client && OthersWait(s, s', i)
  {
    hide Solvent, Reaches, Calm, GetAttempt, Head, PayMove, ObserveMove, FinalizeMove, Release, Find, SaveObserved;
    assert Solo(y, s, i, 0) == s && Solo(y, s, i, 1) == Move(y, s, i);
    assert Solo(y, s, i, 2) == Move(y, Solo(y, s, i, 1), i);
    SoloReaches(d, y, past, s, i, 2);
    s' := Solo(y, s, i, 2);
  }

  /** It records on the attempt as it has become since. */
  lemma RecordsLate(d: Discipline, y: System, past: seq<nat>, s: State, i: nat, a: Attempt) returns (s': State)
    requires Clear(d, y, past, s) && i in y.duties && y.duties[i].Reconcile? && At(s, i).Looked? && !d.wholeObservations
    requires GetAttempt(s.client, HOME, At(s, i).attemptId) == Some(a)
    ensures Clear(d, y, past, s') && OthersWait(s, s', i)
    ensures var b := Observed(a, y.duties[i].record, y.duties[i].fixture);
      s'.client == Put(s.client, AttemptRecord(b)) && At(s', i) == Releasing(b.stepId, HeadAfterObservation(b))
  {
    hide Solvent, Reaches, Calm, Put, Observed, GetAttempt, PayMove, ObserveMove, FinalizeMove, Release;
    hide HeadAfterObservation;
    assert Solo(y, s, i, 0) == s && Solo(y, s, i, 1) == Move(y, s, i);
    assert Solo(y, s, i, 2) == Move(y, Solo(y, s, i, 1), i);
    SoloReaches(d, y, past, s, i, 2);
    s' := Solo(y, s, i, 2);
  }

  lemma StaleObservationIsDisciplined()
    ensures Disciplined(FULL.(wholeObservations := false), STALE_OBSERVATION)
  {
  }

  /** The provider's answer to an earlier lookup reopens an attempt whose next command is in flight. */
  lemma StaleObservationOverlaps() returns (s: State)
    ensures var d := FULL.(wholeObservations := false);
      Disciplined(d, STALE_OBSERVATION) && Reaches(d, STALE_OBSERVATION, [], s) && !OneInFlight(STALE_OBSERVATION, s)
  {
    hide Disciplined, Reaches, Calm, Solvent, Put, SetHead, Head, GetAttempt, Intended, Observed, Duplicate;
    hide HeadAfterObservation, Success;
    var d, y := FULL.(wholeObservations := false), STALE_OBSERVATION;
    StaleObservationIsDisciplined();
    var s1 := Creates(d, y);
    var s2 := Looks(d, y, [], s1, 1, CreatedAttempt());
    Passes(s2.client, y.duties[2].order);
    var s3 := Sends(d, y, [], s2, 2);
    IntendedReads(s2.client, y.duties[2].order);
    var s4 := RecordsLate(d, y, [], s3, 1, IntentOf(y.duties[2].order));
    ObservedAsActive(y.duties[2].order);
    SavedReads(s3.client, Observed(IntentOf(y.duties[2].order), JobAs("funded"), false));
    Passes(s4.client, y.duties[3].order);
    s := Sends(d, y, [], s4, 3);
    TwoInFlight(y, s, 2, 3);
  }

  const DIRECT_OBSERVATION := System(HOME, map[
    0 := Pay(Costless(CreateJob, "a", "s", SIGMA), FAILURE),
    1 := Observe("a", JobAs("funded"), false),
    2 := Pay(Costless(Fund, "b", "s", SIGMA), FAILURE)])

  /** A direct observation, undisturbed. */
  lemma RecordsDirectly(d: Discipline, y: System, past: seq<nat>, s: State, i: nat, a: Attempt) returns (s': State)
    requires Clear(d, y, past, s) && i in y.duties && y.duties[i].Observe? && At(s, i) == Ready
    requires GetAttempt(s.client, HOME, y.duties[i].attemptId) == Some(a)
    ensures var b := Observed(a, y.duties[i].record, y.duties[i].fixture);
      s'.client == SetHead(Put(s.client, AttemptRecord(b)), HOME, b.stepId, HeadAfterObservation(b))
    ensures Clear(d, y, past, s') && OthersWait(s, s', i)
  {
    hide Solvent, Reaches, Calm, Put, Observed, SetHead, GetAttempt, PayMove, ReconcileMove, FinalizeMove;
    hide HeadAfterObservation;
    assert Solo(y, s, i, 0) == s && Solo(y, s, i, 1) == Move(y, s, i);
    assert Solo(y, s, i, 2) == Move(y, Solo(y, s, i, 1), i) && Solo(y, s, i, 3) == Move(y, Solo(y, s, i, 2), i);
    SoloReaches(d, y, past, s, i, 3);
    s' := Solo(y, s, i, 3);
  }

  lemma DirectObservationIsDisciplined()
    ensures Disciplined(FULL.(throughHead := false), DIRECT_OBSERVATION)
  {
  }

  /** A direct observation has no status check: it reopens an attempt that is in flight. */
  lemma DirectObservationOverlaps() returns (s: State)
    ensures var d := FULL.(throughHead := false);
      Disciplined(d, DIRECT_OBSERVATION) && Reaches(d, DIRECT_OBSERVATION, [], s) && !OneInFlight(DIRECT_OBSERVATION, s)
  {
    hide Disciplined, Reaches, Calm, Solvent, Put, SetHead, Head, GetAttempt, Intended, Observed, Duplicate;
    hide HeadAfterObservation;
    var d, y := FULL.(throughHead := false), DIRECT_OBSERVATION;
    DirectObservationIsDisciplined();
    StartIsClear(d, y);
    Passes(START.client, y.duties[0].order);
    var s1 := Sends(d, y, [], START, 0);
    IntendedReads(START.client, y.duties[0].order);
    var s2 := RecordsDirectly(d, y, [], s1, 1, IntentOf(y.duties[0].order));
    ObservedAsActive(y.duties[0].order);
    var b := Observed(IntentOf(y.duties[0].order), JobAs("funded"), false);
    SavedReads(s1.client, b);
    ReleasedReads(Put(s1.client, AttemptRecord(b)), "s", Some("a"));
    Passes(s2.client, y.duties[2].order);
    s := Sends(d, y, [], s2, 2);
    TwoInFlight(y, s, 0, 2);
  }

  // ----- finalizations --------------------------------------------------------------------

  function DoneClosing(): Closing {
    var proof := Proof(true, "hash", "hash", 1, "transaction", Some(Artifact("artifact", "hash", true)));
    Closing.Closing("w", "s", "m", SIGMA, "a", JobAs("completed"), Some(Text("done")), Some("hash"), proof, None, 0)
  }

  lemma CreatedIsClosable()
    ensures Closable(CreatedAttempt(), HOME, DoneClosing())
  {
    assert Lower("completed") == "completed";
  }

  const LATE_FINALIZATION := System(HOME, map[
    0 := Pay(Costless(CreateJob, "a", "s", SIGMA), Success()),
    1 := Pay(Costless(Fund, "b", "s", SIGMA), FAILURE),
    2 := Finalize(DoneClosing()),
    3 := Pay(Costless(CreateJob, "c", "s", SIGMA), FAILURE)])

  lemma LateFinalizationIsDisciplined(d: Discipline)
    ensures Disciplined(d, LATE_FINALIZATION)
  {
  }

  lemma DoneNames()
    ensures DoneClosing().stepId == "s" && DoneClosing().attemptId == "a"
  {
  }

  /** A finalization that has read its attempt under the head. */
  lemma Begins(d: Discipline, y: System, past: seq<nat>, s: State, i: nat, a: Attempt) returns (s': State)
    requires Clear(d, y, past, s) && i in y.duties && y.duties[i].Finalize? && At(s, i) == Ready
    requires !d.wholeFinalizations && Entitled(d, y, s, i)
    requires GetAttempt(s.client, HOME, y.duties[i].closing.attemptId) == Some(a)
    requires Closable(a, HOME, y.duties[i].closing)
    ensures Clear(d, y, past, s') && At(s', i) == Phase.Closing(a) && s'.client == s.client && OthersWait(s, s', i)
  {
    hide Solvent, Reaches, Calm, GetAttempt, Head, Closable, PayMove, ReconcileMove, ObserveMove, Release;
    assert Solo(y, s, i, 0) == s && Solo(y, s, i, 1) == Move(y, s, i);
    SoloReaches(d, y, past, s, i, 1);
    s' := Solo(y, s, i, 1);
  }

  /** The rest of a finalization. */
  lemma Concludes(d: Discipline, y: System, past: seq<nat>, s: State, i: nat) returns (s': State)
    requires Clear(d, y, past, s) && i in y.duties && y.duties[i].Finalize? && At(s, i).Closing?
    ensures Clear(d, y, past, s') && OthersWait(s, s', i)
    ensures var f := y.duties[i].closing;
      s'.client == SetHead(ClosedIn(s.client, HOME, At(s, i).attempt, f), HOME, f.stepId, None)
  {
    hide Solvent, Reaches, Calm, Put, SetHead, ClosedWork, ClosedAttempt, PayMove, ReconcileMove, ObserveMove;
    assert Solo(y, s, i, 0) == s && Solo(y, s, i, 1) == Move(y, s, i);
    assert Solo(y, s, i, 2) == Move(y, Solo(y, s, i, 1), i) && Solo(y, s, i, 3) == Move(y, Solo(y, s, i, 2), i);
    SoloReaches(d, y, past, s, i, 3);
    s' := Solo(y, s, i, 3);
  }

  /** A whole finalization. */
  lemma Finalizes(d: Discipline, y: System, past: seq<nat>, s: State, i: nat, a: Attempt) returns (s': State)
    requires Clear(d, y, past, s) && i in y.duties && y.duties[i].Finalize? && At(s, i) == Ready && Entitled(d, y, s, i)
    requires GetAttempt(s.client, HOME, y.duties[i].closing.attemptId) == Some(a)
    requires Closable(a, HOME, y.duties[i].closing)
    ensures Clear(d, y, past, s') && OthersWait(s, s', i)
    ensures var f := y.duties[i].closing;
      s'.client == SetHead(ClosedIn(s.client, HOME, a, f), HOME, f.stepId, None)
  {
    hide Solvent, Reaches, Calm, SetHead, ClosedIn, Closable, GetAttempt, Solo, Head;
    AloneIsFinalized(y, s, i);
    SoloReaches(d, y, past, s, i, 4);
    s' := Solo(y, s, i, 4);
  }

  /** Finalizing an attempt that the head no longer names releases the step under a command in flight. */
  lemma StaleFinalizationOverlaps() returns (s: State)
    ensures var d := FULL.(headFinalizes := false);
      Disciplined(d, LATE_FINALIZATION) && Reaches(d, LATE_FINALIZATION, [], s) && !OneInFlight(LATE_FINALIZATION, s)
  {
    hide Disciplined, Reaches, Calm, Solvent, Put, SetHead, Head, GetAttempt, Intended, ClosedIn, Closable, Duplicate;
    hide Success, DoneClosing;
    var d, y := FULL.(headFinalizes := false), LATE_FINALIZATION;
    LateFinalizationIsDisciplined(d);
    DoneNames();
    var s1 := Creates(d, y);
    Passes(s1.client, y.duties[1].order);
    var s2 := Sends(d, y, [], s1, 1);
    IntendedReads(s1.client, y.duties[1].order);
    CreatedIsClosable();
    var s3 := Finalizes(d, y, [], s2, 2, CreatedAttempt());
    ReleasedReads(ClosedIn(s2.client, HOME, CreatedAttempt(), DoneClosing()), "s", None);
    Passes(s3.client, y.duties[3].order);
    s := Sends(d, y, [], s3, 3);
    TwoInFlight(y, s, 1, 3);
  }

  /** So does a finalization during which the step is taken. */
  lemma SlowFinalizationOverlaps() returns (s: State)
    ensures var d := FULL.(wholeFinalizations := false);
      Disciplined(d, LATE_FINALIZATION) && Reaches(d, LATE_FINALIZATION, [], s) && !OneInFlight(LATE_FINALIZATION, s)
  {
    hide Disciplined, Reaches, Calm, Solvent, Put, SetHead, Head, GetAttempt, Intended, ClosedIn, Closable, Duplicate;
    hide Success, DoneClosing;
    var d, y := FULL.(wholeFinalizations := false), LATE_FINALIZATION;
    LateFinalizationIsDisciplined(d);
    DoneNames();
    var s1 := Creates(d, y);
    CreatedIsClosable();
    var s2 := Begins(d, y, [], s1, 2, CreatedAttempt());
    Passes(s2.client, y.duties[1].order);
    var s3 := Sends(d, y, [], s2, 1);
    var s4 := Concludes(d, y, [], s3, 2);
    ReleasedReads(ClosedIn(s3.client, HOME, CreatedAttempt(), DoneClosing()), "s", None);
    Passes(s4.client, y.duties[3].order);
    s := Sends(d, y, [], s4, 3);
    TwoInFlight(y, s, 1, 3);
  }

  // ----- the condition is exact -----------------------------------------------------------

  /** Every habit of the one is a habit of the other. */
  predicate Weaker(d: Discipline, e: Discipline) {
    && (d.wholeMarks ==> e.wholeMarks) && (d.wholeObservations ==> e.wholeObservations)
    && (d.wholeFinalizations ==> e.wholeFinalizations) && (d.headFinalizes ==> e.headFinalizes)
    && (d.throughHead ==> e.throughHead) && (d.oneSignature ==> e.oneSignature) && (d.ownedIds ==> e.ownedIds)
  }

  lemma WeakerIntrudes(d: Discipline, e: Discipline, y: System, s: State, i: nat)
    requires Weaker(d, e) && Intrudes(d, y, s, i)
    ensures Intrudes(e, y, s, i)
  {
    hide Move, StepAt;
    var j :| j != i && Inside(d, y, s, j) && StepAt(y, s, j) == StepAt(y, s, i);
    assert Inside(e, y, s, j);
  }

  lemma WeakerAllows(d: Discipline, e: Discipline, y: System, s: State, i: nat)
    requires Weaker(d, e) && Allowed(e, y, s, i)
    ensures Allowed(d, y, s, i)
  {
    hide Intrudes, BeginsAtHead;
    if Intrudes(d, y, s, i) { WeakerIntrudes(d, e, y, s, i); }
  }

  lemma {:induction false} WeakerKeeps(d: Discipline, e: Discipline, y: System, moves: seq<nat>)
    requires Weaker(d, e) && Orderly(e, y, moves)
    ensures Orderly(d, y, moves)
  {
    hide Allowed, Weaker;
    if moves != [] {
      WeakerKeeps(d, e, y, moves[..|moves| - 1]);
      WeakerAllows(d, e, y, Interleave(y, moves[..|moves| - 1]), moves[|moves| - 1]);
    }
  }

  /** Giving up one habit and keeping all others lets two commands for a step be in flight. */
  lemma OneMissingOverlaps(d: Discipline) returns (e: Discipline, y: System, s: State)
    requires d != FULL
    ensures Weaker(d, e) && Disciplined(e, y) && Reaches(e, y, [], s) && !OneInFlight(y, s)
  {
    hide Disciplined, Reaches, OneInFlight;
    if !d.wholeMarks {
      e, y := FULL.(wholeMarks := false), LATE_RELEASE;
      s := LateReleaseOverlaps();
    } else if !d.wholeObservations {
      e, y := FULL.(wholeObservations := false), STALE_OBSERVATION;
      s := StaleObservationOverlaps();
    } else if !d.wholeFinalizations {
      e, y := FULL.(wholeFinalizations := false), LATE_FINALIZATION;
      s := SlowFinalizationOverlaps();
    } else if !d.headFinalizes {
      e, y := FULL.(headFinalizes := false), LATE_FINALIZATION;
      s := StaleFinalizationOverlaps();
    } else if !d.throughHead {
      e, y := FULL.(throughHead := false), DIRECT_OBSERVATION;
      s := DirectObservationOverlaps();
    } else if !d.oneSignature {
      e, y := FULL.(oneSignature := false), TWO_SIGNATURES;
      s := TwoSignaturesOverlap();
    } else {
      e, y := FULL.(ownedIds := false), SHARED_ID;
      s := SharedIdOverlaps();
    }
  }

  lemma WeakerDisciplined(d: Discipline, e: Discipline, y: System)
    requires Weaker(d, e) && Disciplined(e, y)
    ensures Disciplined(d, y)
  {
    hide OneSignature, OwnedIds, ThroughHead;
  }

  /** Of all sets of habits, exactly the whole discipline keeps at most one command per step in flight -- and the whole
      of safety -- on every schedule of every set of operations that keeps them. */
  lemma SafeExactlyUnderFullDiscipline(d: Discipline)
    ensures (forall y: System, moves :: Keeps(d, y, moves) ==> OneInFlight(y, Interleave(y, moves))) <==> d == FULL
    ensures (forall y: System, moves :: Keeps(d, y, moves) ==> Safe(y, Interleave(y, moves))) <==> d == FULL
  {
    hide Disciplined, OneInFlight, Interleave, Orderly, CommandsAreBacked, HeadsAreOpen;
    if d == FULL {
      forall y: System, moves | Keeps(d, y, moves) ensures Safe(y, Interleave(y, moves)) {
        DisciplinedRunsAreSafe(y, moves);
      }
    } else {
      var e, y, s := OneMissingOverlaps(d);
      var more :| Orderly(e, y, [] + more) && Interleave(y, [] + more) == s;
      var moves := [] + more;
      WeakerDisciplined(d, e, y);
      WeakerKeeps(d, e, y, moves);
      assert Keeps(d, y, moves) && !OneInFlight(y, Interleave(y, moves)) && !Safe(y, Interleave(y, moves));
    }
  }
}
