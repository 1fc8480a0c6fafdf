/** Any number of threads inside `DeltaEngine.execute`, interleaved at the lock: the lookup of a reusable result is
    outside it, `_active_attempt`, `_start_attempt` and the two ways of ending an attempt are inside it.

    A thread processes one step; whole calls are in Concurrent.dfy. */
module Mutex {
  import opened Options
  import opened Json
  import opened Types
  import opened Core
  import opened Store
  import opened Planning
  import opened Engine

  datatype Phase = Ready | Missed | Clear | Running | Ended

  datatype Thread = Thread(job: Job, step: Step, input: Value, phase: Phase)

  datatype State = State(client: Client, threads: map<nat, Thread>)

  function SlotOf(t: Thread): Slot {
    Slot(t.job.q.scope, t.step.id)
  }

  function Asks(t: Thread): Signature {
    SignatureFor(t.job.q, t.step, t.input)
  }

  function AttemptId(t: Thread): string {
    t.job.newId(t.step.id)
  }

  function Owner(c: Client, t: Thread): Option<Attempt> {
    ActiveAttempt(c, t.job.q.scope, t.step.id, Asks(t))
  }

  function Started(t: Thread): Attempt {
    NewAttempt(t.job, t.step, Asks(t))
  }

  /** The locked section that ends an attempt: save the result if there is one, the attempt, release the head. */
  function EndAttempt(c: Client, t: Thread): Client {
    match Engine.Executed(t.job, t.step, t.input)
    case Some(output) =>
      Finish(Put(c, Work(ResultOf(t.job, t.step, Asks(t), output))), Started(t).(status := Succeeded))
    case None =>
      Finish(c, Started(t).(status := Failed, errorCode := Some("EXECUTOR_FAILED")))
  }

  /** What one thread does next, atomically. */
  function Act(c: Client, t: Thread): (Client, Phase) {
    match t.phase
    case Ready => // `get_work_result`, unlocked
      (c, if Reusable(c, t.job.q.scope, t.job.q, t.step, Asks(t)).Some? then Ended else Missed)
    case Missed => // `_active_attempt`, then the executor check
      (c, if Owner(c, t).Some? || !t.step.executable then Ended else Clear)
    case Clear => // `_start_attempt`
      if Owner(c, t).Some? then (c, Ended) else (Begin(c, Started(t)), Running)
    case Running => // the executor returned or raised
      (EndAttempt(c, t), Ended)
    case Ended => (c, Ended)
  }

  function Step(s: State, id: nat): State {
    if id !in s.threads then s else
    var t := s.threads[id];
    var (client, phase) := Act(s.client, t);
    State(client, s.threads[id := t.(phase := phase)])
  }

  /** An interleaving: which thread moves, move by move. */
  function Run(s: State, moves: seq<nat>): State {
    if moves == [] then s else Step(Run(s, moves[..|moves| - 1]), moves[|moves| - 1])
  }

  // ----- properties -----------------------------------------------------------------------

  /** At most one executor call per step is in flight. */
  ghost predicate Exclusive(s: State) {
    forall i, j :: i in s.threads && j in s.threads && BothRun(s.threads[i], s.threads[j]) ==> i == j
  }

  ghost predicate BothRun(t: Thread, u: Thread) {
    t.phase == Running && u.phase == Running && SlotOf(t) == SlotOf(u)
  }

  /** While the thread's call is in flight, the head of its step names exactly its attempt, and it is active. */
  ghost predicate Holds(c: Client, t: Thread) {
    && Head(c, t.job.q.scope, t.step.id) == Some(AttemptId(t))
    && Owner(c, t) == Some(Started(t)) && Owner(c, t).value.status == Active
  }

  ghost predicate HeadsAreHeld(s: State) {
    forall i :: i in s.threads && s.threads[i].phase == Running ==> Holds(s.client, s.threads[i])
  }

  /** Attempt identifiers of different threads differ. */
  ghost predicate DistinctAttempts(s: State) {
    forall i, j :: i in s.threads && j in s.threads && i != j ==> AttemptId(s.threads[i]) != AttemptId(s.threads[j])
  }

  /** All threads that could execute a step ask for one and the same signature on it. */
  ghost predicate OneSignature(s: State) {
    forall i, j :: i in s.threads && j in s.threads && Compete(s.threads[i], s.threads[j]) ==>
      Asks(s.threads[i]) == Asks(s.threads[j])
  }

  ghost predicate Compete(t: Thread, u: Thread) {
    t.step.executable && u.step.executable && SlotOf(t) == SlotOf(u)
  }

  ghost predicate Fresh(s: State) {
    forall i :: i in s.threads ==> s.threads[i].phase == Ready
  }

  /** Only a thread of an executable step gets past the check. */
  ghost predicate OnlyExecutableRuns(s: State) {
    forall i :: i in s.threads && (s.threads[i].phase == Running || s.threads[i].phase == Clear) ==>
      s.threads[i].step.executable
  }

  ghost predicate Guarded(s: State) {
    DistinctAttempts(s) && OneSignature(s) && OnlyExecutableRuns(s) && HeadsAreHeld(s)
  }

  // ----- mutual exclusion -----------------------------------------------------------------

  lemma HeldIsExclusive(s: State)
    requires DistinctAttempts(s) && HeadsAreHeld(s)
    ensures Exclusive(s)
  {
    forall i, j | i in s.threads && j in s.threads && BothRun(s.threads[i], s.threads[j]) ensures i == j {
      assert Holds(s.client, s.threads[i]) && Holds(s.client, s.threads[j]);
    }
  }

  lemma BeginHolds(c: Client, t: Thread)
    ensures Holds(Begin(c, Started(t)), t)
  {
    hide SignatureFor;
  }

  /** Another thread's start or end disturbs this thread's hold only if it is on the same step. */
  lemma OthersKeepHold(c: Client, t: Thread, u: Thread)
    requires Holds(c, t) && AttemptId(u) != AttemptId(t) && SlotOf(u) != SlotOf(t)
    ensures Holds(Begin(c, Started(u)), t) && Holds(EndAttempt(c, u), t)
  {
    hide SignatureFor, Engine.Executed, OutputSignature, FreshUntil, ProvenanceFor;
  }

  lemma StepKeepsNames(s: State, id: nat)
    requires DistinctAttempts(s) && OneSignature(s) && OnlyExecutableRuns(s)
    ensures DistinctAttempts(Step(s, id)) && OneSignature(Step(s, id)) && OnlyExecutableRuns(Step(s, id))
  {
    hide EndAttempt, Reusable, ActiveAttempt, SignatureFor, Begin;
    var s' := Step(s, id);
    forall i, j | i in s'.threads && j in s'.threads && i != j
      ensures AttemptId(s'.threads[i]) != AttemptId(s'.threads[j])
    {
      assert AttemptId(s.threads[i]) != AttemptId(s.threads[j]);
    }
    forall i, j | i in s'.threads && j in s'.threads && Compete(s'.threads[i], s'.threads[j])
      ensures Asks(s'.threads[i]) == Asks(s'.threads[j])
    {
      assert Compete(s.threads[i], s.threads[j]);
    }
  }

  lemma StepKeepsGuard(s: State, id: nat)
    requires Guarded(s)
    ensures Guarded(Step(s, id))
  {
    hide Holds, EndAttempt, Reusable, ActiveAttempt, SignatureFor, Begin;
    hide DistinctAttempts, OneSignature, OnlyExecutableRuns;
    StepKeepsNames(s, id);
    if id in s.threads {
      var s', u := Step(s, id), s.threads[id];
      forall i | i in s'.threads && s'.threads[i].phase == Running ensures Holds(s'.client, s'.threads[i]) {
        if i == id {
          BeginHolds(s.client, u);
          PhaseAside(s'.client, u, s'.threads[i]);
        } else {
          HoldSurvives(s, id, i);
        }
      }
    }
  }

  lemma PhaseAside(c: Client, t: Thread, t': Thread)
    requires t' == t.(phase := t'.phase) && Holds(c, t)
    ensures Holds(c, t')
  {
    hide SignatureFor;
  }

  lemma HoldSurvives(s: State, id: nat, i: nat)
    requires Guarded(s) && id in s.threads && i in s.threads && i != id && s.threads[i].phase == Running
    ensures Holds(Step(s, id).client, s.threads[i])
  {
    hide EndAttempt, SignatureFor, Begin, Reusable, ActiveAttempt;
    var t, u := s.threads[i], s.threads[id];
    assert Holds(s.client, t);
    HeldIsExclusive(s);
    if SlotOf(t) != SlotOf(u) {
      OthersKeepHold(s.client, t, u);
    } else if u.phase == Clear {
      assert Compete(t, u);
      assert Owner(s.client, u).Some?;
    } else {
      assert BothRun(t, u) ==> i == id;
    }
  }

  lemma {:induction false} RunsKeepGuard(s: State, moves: seq<nat>)
    requires Fresh(s) && DistinctAttempts(s) && OneSignature(s)
    ensures Guarded(Run(s, moves))
  {
    hide Step;
    if moves != [] {
      RunsKeepGuard(s, moves[..|moves| - 1]);
      StepKeepsGuard(Run(s, moves[..|moves| - 1]), moves[|moves| - 1]);
    }
  }

  /** In every interleaving in which the threads of a step ask for one signature, at most one executor call per
      step is in flight, and while it is, the step's head names exactly its active attempt -- over any store, also
      one left behind by a crash. */
  lemma MutualExclusion(s: State, moves: seq<nat>)
    requires Fresh(s) && DistinctAttempts(s) && OneSignature(s)
    ensures Exclusive(Run(s, moves)) && HeadsAreHeld(Run(s, moves))
  {
    RunsKeepGuard(s, moves);
    HeldIsExclusive(Run(s, moves));
  }

  /** Only the owner clears a head: a move that releases it is the end of the attempt it named. */
  lemma OnlyTheOwnerReleases(s: State, moves: seq<nat>, id: nat, slot: Slot)
    requires Fresh(s) && DistinctAttempts(s) && OneSignature(s)
    requires var before, after := Run(s, moves), Step(Run(s, moves), id);
      Head(before.client, slot.scope, slot.stepId).Some? && Head(after.client, slot.scope, slot.stepId).None?
    ensures var before := Run(s, moves);
      && id in before.threads && before.threads[id].phase == Running && SlotOf(before.threads[id]) == slot
      && Head(before.client, slot.scope, slot.stepId) == Some(AttemptId(before.threads[id]))
  {
    hide Run, Reusable, ActiveAttempt, SignatureFor, Engine.Executed, ResultOf;
    RunsKeepGuard(s, moves);
    var before := Run(s, moves);
    if id in before.threads && before.threads[id].phase == Running {
      assert Holds(before.client, before.threads[id]);
    }
  }

  // ----- the condition is exact -----------------------------------------------------------

  /** Nothing in the store stops a thread: no reusable result and no active attempt for what it asks. */
  ghost predicate Unobstructed(s: State) {
    forall i :: i in s.threads ==> Passes(s.client, s.threads[i])
  }

  ghost predicate Passes(c: Client, t: Thread) {
    Reusable(c, t.job.q.scope, t.job.q, t.step, Asks(t)).None? && Owner(c, t).None?
  }

  /** A thread that nothing stops is running after three moves. */
  lemma ThreeMovesRun(s: State, id: nat)
    requires id in s.threads && s.threads[id].phase == Ready && s.threads[id].step.executable
    requires Passes(s.client, s.threads[id])
    ensures var t := s.threads[id];
      Step(Step(Step(s, id), id), id) == State(Begin(s.client, Started(t)), s.threads[id := t.(phase := Running)])
  {
    hide Reusable, ActiveAttempt, SignatureFor, Begin;
  }

  /** An attempt for another signature does not stop the thread. */
  lemma OtherSignaturePasses(c: Client, t: Thread, u: Thread)
    requires Passes(c, t) && SlotOf(t) == SlotOf(u) && Asks(t) != Asks(u)
    ensures Passes(Begin(c, Started(u)), t)
  {
    hide SignatureFor, Usable;
  }

  lemma SixMoves(s: State, i: nat, j: nat)
    ensures Run(s, [i, i, i, j, j, j]) == Step(Step(Step(Step(Step(Step(s, i), i), i), j), j), j)
  {
    hide Step, Run;
    OneMove(s, [], i);
    OneMove(s, [i], i);
    OneMove(s, [i, i], i);
    OneMove(s, [i, i, i], j);
    OneMove(s, [i, i, i, j], j);
    OneMove(s, [i, i, i, j, j], j);
    assert [] + [i] == [i] && [i] + [i] == [i, i] && [i, i] + [i] == [i, i, i] && [i, i, i] + [j] == [i, i, i, j]
      && [i, i, i, j] + [j] == [i, i, i, j, j] && [i, i, i, j, j] + [j] == [i, i, i, j, j, j];
  }

  lemma OneMove(s: State, moves: seq<nat>, id: nat)
    ensures Run(s, []) == s && Run(s, moves + [id]) == Step(Run(s, moves), id)
  {
    hide Step;
    assert (moves + [id])[..|moves|] == moves;
  }

  /** Two executor calls for one step: the second thread's signature differs, so the head does not stop it. */
  lemma TwoSignaturesRunTogether(s: State, i: nat, j: nat)
    requires Fresh(s) && Unobstructed(s) && i in s.threads && j in s.threads
    requires Compete(s.threads[i], s.threads[j]) && Asks(s.threads[i]) != Asks(s.threads[j])
    ensures !Exclusive(Run(s, [i, i, i, j, j, j]))
  {
    hide Step, Passes, Begin, SignatureFor, Run;
    var t, u := s.threads[i], s.threads[j];
    ThreeMovesRun(s, i);
    var half := State(Begin(s.client, Started(t)), s.threads[i := t.(phase := Running)]);
    OtherSignaturePasses(s.client, u, t);
    ThreeMovesRun(half, j);
    SixMoves(s, i, j);
    var last := Run(s, [i, i, i, j, j, j]);
    assert BothRun(last.threads[i], last.threads[j]);
  }

  /** Mutual exclusion holds in every reachable state exactly when the threads of each step ask for one signature. */
  lemma ExclusiveExactlyWithOneSignature(s: State)
    requires Fresh(s) && DistinctAttempts(s) && Unobstructed(s)
    ensures (forall moves :: Exclusive(Run(s, moves))) <==> OneSignature(s)
  {
    if OneSignature(s) {
      forall moves ensures Exclusive(Run(s, moves)) {
        MutualExclusion(s, moves);
      }
    } else {
      var i, j :| i in s.threads && j in s.threads && Compete(s.threads[i], s.threads[j])
        && Asks(s.threads[i]) != Asks(s.threads[j]);
      TwoSignaturesRunTogether(s, i, j);
    }
  }

  // ----- a thread alone is the engine's step ----------------------------------------------

  lemma StoppedThread(s: State, id: nat)
    requires id in s.threads && s.threads[id].phase == Ready
    requires !Passes(s.client, s.threads[id]) || !s.threads[id].step.executable
    ensures id in Step(Step(s, id), id).threads
    ensures Step(Step(s, id), id).client == s.client && Step(Step(s, id), id).threads[id].phase == Ended
  {
    hide Reusable, ActiveAttempt, SignatureFor;
  }

  lemma EndedThread(s: State, id: nat)
    requires id in s.threads && s.threads[id].phase == Ended
    ensures id in Step(s, id).threads
    ensures Step(s, id).client == s.client && Step(s, id).threads[id].phase == Ended
  {
  }

  lemma StepOfThread(t: Thread, p: Progress)
    requires StepInput(t.step, t.job.q.inputs, p.outputs) == Some(t.input)
    ensures ExecuteStep(t.job, p, t.step).client ==
      if Passes(p.client, t) && t.step.executable then EndAttempt(Begin(p.client, Started(t)), t) else p.client
  {
    hide StepInput, SignatureFor, Reusable, ActiveAttempt, Engine.Executed, ResultOf, Begin, Finish, Put, NewAttempt;
  }

  /** Undisturbed, a thread's four moves leave the client as `ExecuteStep` does. */
  lemma AloneIsExecuteStep(s: State, id: nat, p: Progress)
    requires id in s.threads && s.threads[id].phase == Ready && p.client == s.client
    requires StepInput(s.threads[id].step, s.threads[id].job.q.inputs, p.outputs) == Some(s.threads[id].input)
    ensures Step(Step(Step(Step(s, id), id), id), id).client ==
      ExecuteStep(s.threads[id].job, p, s.threads[id].step).client
    ensures id in Step(Step(Step(Step(s, id), id), id), id).threads
    ensures Step(Step(Step(Step(s, id), id), id), id).threads[id].phase == Ended
  {
    hide Step, Passes, Begin, ExecuteStep, StepInput;
    var t := s.threads[id];
    StepOfThread(t, p);
    if Passes(s.client, t) && t.step.executable {
      ThreeMovesRun(s, id);
      LastMove(State(Begin(s.client, Started(t)), s.threads[id := t.(phase := Running)]), id, t);
    } else {
      StoppedThread(s, id);
      EndedThread(Step(Step(s, id), id), id);
      EndedThread(Step(Step(Step(s, id), id), id), id);
    }
  }

  lemma LastMove(s: State, id: nat, t: Thread)
    requires id in s.threads && s.threads[id] == t.(phase := Running)
    ensures id in Step(s, id).threads
    ensures Step(s, id).client == EndAttempt(s.client, t) && Step(s, id).threads[id].phase == Ended
  {
    hide SignatureFor, Engine.Executed, Finish, Put;
  }
}
