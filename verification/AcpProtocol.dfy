/** Threads inside the ACP adapter, interleaved between any two of their store accesses.

    A paid operation takes the action lock for its duplicate check, authorization, reservation and intent; the command,
    the marking of its outcome, observations and finalizations run without it.  `Move` is one access of one thread.
    The habits that the safety of the protocol rests on are conditions on the schedule and on the operations, not on
    the moves. */
module AcpProtocol {
  import opened Options
  import opened Json
  import opened Types
  import opened Core
  import opened Store
  import opened Engine
  import opened Spend
  import opened Reconcile
  import opened Acp

  datatype Duty =
    | Pay(order: Order, response: Response)
    | Reconcile(stepId: string, record: JobRecord, fixture: bool)
    | Observe(attemptId: string, record: JobRecord, fixture: bool)
    | Finalize(closing: Closing)

  /** Where a thread is: what it has read or written last.  A payment holds the lock from `Checking` to `Intending`.
      `Releasing` still has to write the head. */
  datatype Phase =
    | Ready
    | Checking(attemptId: string)
    | Checked
    | Booked
    | Intending
    | Persisted
    | InFlight
    | Marking(attempt: Attempt)
    | Looking(attemptId: string)
    | Looked(attemptId: string)
    | Observing(attempt: Attempt)
    | Closing(attempt: Attempt)
    | Kept(attempt: Attempt)
    | Releasing(stepId: string, head: Option<string>)
    | Ended

  datatype System = System(scope: Scope, duties: map<nat, Duty>)

  /** `log` holds the threads in the order in which they sent their commands. */
  datatype State = State(client: Client, ledgers: Ledgers, lock: Option<nat>, phases: map<nat, Phase>, log: seq<nat>)

  const START := State(EMPTY, map[], None, map[], [])

  function At(s: State, i: nat): Phase {
    if i in s.phases then s.phases[i] else Ready
  }

  function To(s: State, i: nat, phase: Phase): State {
    s.(phases := s.phases[i := phase])
  }

  // ----- moves ----------------------------------------------------------------------------

  /** Take the lock, if it is free, and read the head. */
  function Enter(y: System, s: State, i: nat, o: Order): State {
    if s.lock.Some? then s
    else match Head(s.client, y.scope, o.stepId)
      case None => To(s.(lock := Some(i)), i, Checked)
      case Some(id) => To(s.(lock := Some(i)), i, Checking(id))
  }

  /** Leave with an exception, releasing the lock. */
  function Refuse(s: State, i: nat): State {
    To(s.(lock := None), i, Ended)
  }

  /** Read the attempt that the head named, and refuse a duplicate. */
  function Check(y: System, s: State, i: nat, o: Order, id: string): State {
    match GetAttempt(s.client, y.scope, id)
    case None => To(s, i, Checked)
    case Some(a) =>
      if a.inputSignature == o.signature && Stops(o.action, a.status) then Refuse(s, i) else To(s, i, Checked)
  }

  /** Authorize and reserve. */
  function Book(s: State, i: nat, o: Order): State {
    match Reserve(s.ledgers, SpendingOf(o))
    case None => Refuse(s, i)
    case Some(ledgers) => To(s.(ledgers := ledgers), i, Booked)
  }

  /** Save the intent; the store refuses a plan of another scope. */
  function Intend(y: System, s: State, i: nat, o: Order): State {
    if o.scope != y.scope then Refuse(s, i)
    else To(s.(client := Put(s.client, AttemptRecord(IntentOf(o)))), i, Intending)
  }

  /** Let the head name the intent and release the lock. */
  function Persist(y: System, s: State, i: nat, o: Order): State {
    To(s.(client := SetHead(s.client, y.scope, o.stepId, Some(o.attemptId)), lock := None), i, Persisted)
  }

  /** The command is answered; read the attempt to mark. */
  function Return(y: System, s: State, i: nat, o: Order): State {
    match GetAttempt(s.client, y.scope, o.attemptId)
    case None => To(s, i, Ended)
    case Some(a) => To(s, i, Marking(a))
  }

  function Mark(s: State, i: nat, o: Order, r: Response, a: Attempt): State {
    To(s.(client := Put(s.client, AttemptRecord(Marked(a, o, r)))), i,
      Releasing(o.stepId, HeadAfterMark(StatusAfter(o, r), o.attemptId)))
  }

  function PayMove(y: System, s: State, i: nat, o: Order, r: Response): State {
    match At(s, i)
    case Ready => Enter(y, s, i, o)
    case Checking(id) => Check(y, s, i, o, id)
    case Checked => Book(s, i, o)
    case Booked => Intend(y, s, i, o)
    case Intending => Persist(y, s, i, o)
    case Persisted => To(s.(log := s.log + [i]), i, InFlight)
    case InFlight => Return(y, s, i, o)
    case Marking(a) => Mark(s, i, o, r, a)
    case _ => s
  }

  /** `record_observation` reads its attempt. */
  function Find(y: System, s: State, i: nat, attemptId: string): State {
    match GetAttempt(s.client, y.scope, attemptId)
    case None => To(s, i, Ended)
    case Some(a) => To(s, i, Observing(a))
  }

  /** It saves what was observed. */
  function SaveObserved(s: State, i: nat, a: Attempt, r: JobRecord, fixture: bool): State {
    var b := Observed(a, r, fixture);
    To(s.(client := Put(s.client, AttemptRecord(b))), i, Releasing(b.stepId, HeadAfterObservation(b)))
  }

  /** `reconcile_attempt` reads the head, then its attempt, queries the provider and records. */
  function ReconcileMove(y: System, s: State, i: nat, stepId: string, r: JobRecord, fixture: bool): State {
    match At(s, i)
    case Ready =>
      (match Head(s.client, y.scope, stepId)
       case None => To(s, i, Ended)
       case Some(id) => To(s, i, Looking(id)))
    case Looking(id) =>
      (match GetAttempt(s.client, y.scope, id)
       case None => To(s, i, Ended)
       case Some(a) => if a.jobId.Some? then To(s, i, Looked(a.attemptId)) else To(s, i, Ended))
    case Looked(id) => Find(y, s, i, id)
    case Observing(a) => SaveObserved(s, i, a, r, fixture)
    case _ => s
  }

  function ObserveMove(y: System, s: State, i: nat, attemptId: string, r: JobRecord, fixture: bool): State {
    match At(s, i)
    case Ready => Find(y, s, i, attemptId)
    case Observing(a) => SaveObserved(s, i, a, r, fixture)
    case _ => s
  }

  /** `finalize_completed_work` reads the attempt, saves the result and saves the attempt. */
  function FinalizeMove(y: System, s: State, i: nat, f: Closing): State {
    match At(s, i)
    case Ready =>
      (match GetAttempt(s.client, y.scope, f.attemptId)
       case None => To(s, i, Ended)
       case Some(a) => if Closable(a, y.scope, f) then To(s, i, Phase.Closing(a)) else To(s, i, Ended))
    case Closing(a) => To(s.(client := Put(s.client, Work(ClosedWork(y.scope, f)))), i, Kept(a))
    case Kept(a) => To(s.(client := Put(s.client, AttemptRecord(ClosedAttempt(a, f)))), i, Releasing(f.stepId, None))
    case _ => s
  }

  function Release(y: System, s: State, i: nat, stepId: string, head: Option<string>): State {
    To(s.(client := SetHead(s.client, y.scope, stepId, head)), i, Ended)
  }

  function Move(y: System, s: State, i: nat): State {
    if i !in y.duties then s
    else if At(s, i).Releasing? then Release(y, s, i, At(s, i).stepId, At(s, i).head)
    else match y.duties[i]
      case Pay(order, response) => PayMove(y, s, i, order, response)
      case Reconcile(stepId, record, fixture) => ReconcileMove(y, s, i, stepId, record, fixture)
      case Observe(attemptId, record, fixture) => ObserveMove(y, s, i, attemptId, record, fixture)
      case Finalize(closing) => FinalizeMove(y, s, i, closing)
  }

  function Interleave(y: System, moves: seq<nat>): State {
    if moves == [] then START else Move(y, Interleave(y, moves[..|moves| - 1]), moves[|moves| - 1])
  }

  // ----- habits ---------------------------------------------------------------------------

  /** On the schedule -- `wholeMarks`: nobody else is active on a step between the two writes that mark an outcome;
      `wholeObservations`: nor between the first read and the last write of an observation; `wholeFinalizations`: nor
      between those of a finalization; `headFinalizes`: a finalization begins only while the head names its attempt.
      On the operations -- `throughHead`: observations arrive through `reconcile_attempt` only; `oneSignature`: the
      payments of a step ask for one signature; `ownedIds`: an attempt id is used for one step. */
  datatype Discipline = Discipline(
    wholeMarks: bool,
    wholeObservations: bool,
    wholeFinalizations: bool,
    headFinalizes: bool,
    throughHead: bool,
    oneSignature: bool,
    ownedIds: bool)

  const FULL := Discipline(true, true, true, true, true, true, true)

  predicate IsPay(y: System, i: nat) {
    i in y.duties && y.duties[i].Pay?
  }

  /** The thread is between the first and the last access of a section that the discipline protects. */
  predicate Inside(d: Discipline, y: System, s: State, i: nat) {
    && i in y.duties
    && match y.duties[i]
       case Pay(_, _) => d.wholeMarks && At(s, i).Releasing?
       case Finalize(_) => d.wholeFinalizations && Closes(At(s, i))
       case _ => d.wholeObservations && Observes(At(s, i))
  }

  predicate Closes(p: Phase) {
    p.Closing? || p.Kept? || p.Releasing?
  }

  predicate Observes(p: Phase) {
    p.Looking? || p.Looked? || p.Observing? || p.Releasing?
  }

  /** The step that the thread is working on; `None` for an observation that has not found its attempt. */
  function StepAt(y: System, s: State, i: nat): Option<string>
    requires i in y.duties
  {
    match y.duties[i]
    case Pay(order, _) => Some(order.stepId)
    case Reconcile(stepId, _, _) => Some(stepId)
    case Finalize(closing) => Some(closing.stepId)
    case Observe(attemptId, _, _) =>
      match At(s, i)
      case Observing(a) => Some(a.stepId)
      case Releasing(stepId, _) => Some(stepId)
      case _ =>
        match GetAttempt(s.client, y.scope, attemptId)
        case Some(a) => Some(a.stepId)
        case None => None
  }

  /** The move would break into another thread's section on the same step. */
  ghost predicate Intrudes(d: Discipline, y: System, s: State, i: nat) {
    && i in y.duties && Move(y, s, i) != s
    && exists j :: j != i && Inside(d, y, s, j) && StepAt(y, s, j) == StepAt(y, s, i)
  }

  predicate BeginsAtHead(y: System, s: State, i: nat) {
    i in y.duties && y.duties[i].Finalize? && At(s, i) == Ready && At(Move(y, s, i), i).Closing? ==>
      Head(s.client, y.scope, y.duties[i].closing.stepId) == Some(y.duties[i].closing.attemptId)
  }

  ghost predicate Allowed(d: Discipline, y: System, s: State, i: nat) {
    !Intrudes(d, y, s, i) && (d.headFinalizes ==> BeginsAtHead(y, s, i))
  }

  ghost predicate OneSignature(y: System) {
    forall i, j :: IsPay(y, i) && IsPay(y, j) && y.duties[i].order.stepId == y.duties[j].order.stepId ==>
      y.duties[i].order.signature == y.duties[j].order.signature
  }

  ghost predicate OwnedIds(y: System) {
    forall i, j :: IsPay(y, i) && IsPay(y, j) && y.duties[i].order.attemptId == y.duties[j].order.attemptId ==>
      y.duties[i].order.stepId == y.duties[j].order.stepId
  }

  ghost predicate ThroughHead(y: System) {
    forall i :: i in y.duties ==> !y.duties[i].Observe?
  }

  /** The operations keep the habits. */
  ghost predicate Disciplined(d: Discipline, y: System) {
    && (d.throughHead ==> ThroughHead(y))
    && (d.oneSignature ==> OneSignature(y))
    && (d.ownedIds ==> OwnedIds(y))
  }

  /** Every move of the schedule keeps the habits. */
  ghost predicate Orderly(d: Discipline, y: System, moves: seq<nat>) {
    moves == [] ||
    (Orderly(d, y, moves[..|moves| - 1]) && Allowed(d, y, Interleave(y, moves[..|moves| - 1]), moves[|moves| - 1]))
  }

  ghost predicate Keeps(d: Discipline, y: System, moves: seq<nat>) {
    Disciplined(d, y) && Orderly(d, y, moves)
  }

  // ----- safety ---------------------------------------------------------------------------

  predicate Sending(y: System, s: State, i: nat, stepId: string) {
    IsPay(y, i) && At(s, i) == InFlight && y.duties[i].order.stepId == stepId
  }

  /** At most one command per step is in flight. */
  ghost predicate OneInFlight(y: System, s: State) {
    forall i, j, stepId :: Sending(y, s, i, stepId) && Sending(y, s, j, stepId) ==> i == j
  }

  /** The reservation of the command is in its plan's ledger, and its attempt is persisted as submitting under the
      step's head. */
  ghost predicate Backed(y: System, s: State, o: Order) {
    var spending := SpendingOf(o);
    && Reserved(Body(s.ledgers, spending).entries, spending.reservationId)
    && Owns(Body(s.ledgers, spending), o.scope, o.planId)
    && Head(s.client, y.scope, o.stepId) == Some(o.attemptId)
    && GetAttempt(s.client, y.scope, o.attemptId) == Some(IntentOf(o))
  }

  /** Every command is backed when it is sent and while it is in flight. */
  ghost predicate CommandsAreBacked(y: System, s: State) {
    forall i :: IsPay(y, i) && (At(s, i) == Persisted || At(s, i) == InFlight) ==> Backed(y, s, y.duties[i].order)
  }

  /** A head names an attempt of its step, and a failed, succeeded, rejected or expired one only while a thread is
      about to clear that head. */
  ghost predicate HeadsAreOpen(y: System, s: State) {
    forall stepId :: Head(s.client, y.scope, stepId).Some? ==> OpenHead(y, s, stepId)
  }

  ghost predicate OpenHead(y: System, s: State, stepId: string)
    requires Head(s.client, y.scope, stepId).Some?
  {
    var a := GetAttempt(s.client, y.scope, Head(s.client, y.scope, stepId).value);
    a.Some? && a.value.stepId == stepId && (Final(a.value.status) ==> Clearing(y, s, stepId))
  }

  ghost predicate Clearing(y: System, s: State, stepId: string) {
    exists i :: i in y.duties && At(s, i) == Releasing(stepId, None)
  }

  ghost predicate Safe(y: System, s: State) {
    OneInFlight(y, s) && CommandsAreBacked(y, s) && HeadsAreOpen(y, s)
  }
}
