/** Whole calls of `DeltaEngine.execute`, any number at once, interleaved at their store accesses and locked sections.
    Each call previews, saves its plan and takes its steps in order; what a step outputs, reused from whatever the other
    calls have stored or executed, feeds its later steps. */
module Concurrent {
  import opened Options
  import opened Json
  import opened Types
  import opened Core
  import opened Store
  import opened Planning
  import opened Engine
  import opened EngineLaws
  import opened CacheLaws
  import Mutex

  /** Where a call is: before its preview, before its plan is saved, between two steps, inside a step whose input is
      known, or ended by a record that does not decode. */
  datatype Stage =
    | Ready
    | Previewed(plan: RevisionPlan)
    | Between
    | Inside(input: Value, phase: Mutex.Phase)
    | Raised

  /** `k` steps are done; `p` is what the call knows itself, its client is not used. */
  datatype Worker = Worker(job: Job, k: nat, p: Progress, stage: Stage)

  datatype State = State(client: Client, workers: map<nat, Worker>)

  function StepOf(w: Worker): Step
    requires w.k < |w.job.q.steps|
  {
    w.job.q.steps[w.k]
  }

  /** The call as a thread of its current step. */
  function ThreadOf(w: Worker): Mutex.Thread
    requires w.stage.Inside? && w.k < |w.job.q.steps|
  {
    Mutex.Thread(w.job, StepOf(w), w.stage.input, w.stage.phase)
  }

  function Next(w: Worker, p: Progress): Worker {
    Worker(w.job, w.k + 1, p, Between)
  }

  /** Resolve the step's input and look its result up. */
  function LookUp(c: Client, w: Worker): Worker
    requires w.k < |w.job.q.steps|
  {
    var step, q := StepOf(w), w.job.q;
    match StepInput(step, q.inputs, w.p.outputs)
    case None => Next(w, WaitStep(w.p, step))
    case Some(input) =>
      var signature := SignatureFor(q, step, input);
      if Unreadable(c, q.scope, q.w.id, step.id, signature) then w.(stage := Raised)
      else match Reusable(c, q.scope, q, step, signature)
        case Some(r) => Next(w, ReuseStep(w.p, step, r, input, signature))
        case None => w.(stage := Inside(input, Mutex.Missed))
  }

  /** The locked sections of a step, and the executor between them. */
  function Proceed(c: Client, w: Worker): (Client, Worker)
    requires w.k < |w.job.q.steps| && w.stage.Inside?
  {
    var t, step, input := ThreadOf(w), StepOf(w), w.stage.input;
    match w.stage.phase
    case Missed =>
      if Mutex.Owner(c, t).Some? then
        (c, Next(w, BlockStep(w.p, step, "ACTIVE_ATTEMPT_EXISTS", input, Mutex.Asks(t))))
      else if !step.executable then
        (c, Next(w, BlockStep(w.p, step, "EXECUTOR_UNAVAILABLE", input, Mutex.Asks(t))))
      else (c, w.(stage := Inside(input, Mutex.Clear)))
    case Clear =>
      if Mutex.Owner(c, t).Some? then
        (c, Next(w, BlockStep(w.p, step, "ACTIVE_ATTEMPT_EXISTS", input, Mutex.Asks(t))))
      else (Begin(c, Mutex.Started(t)), w.(stage := Inside(input, Mutex.Running)))
    case Running => (Mutex.EndAttempt(c, t), Next(w, RunStep(w.job, w.p, step, input, Mutex.Asks(t))))
    case _ => (c, w)
  }

  function Act(c: Client, w: Worker): (Client, Worker) {
    match w.stage
    case Ready => (c, w.(stage := Previewed(PlanOf(w.job.q, LookupPreview(c, w.job.q, |w.job.q.steps|).decisions))))
    case Previewed(plan) => (Put(c, PlanRecord(plan)), w.(stage := Between))
    case Between => if w.k < |w.job.q.steps| then (c, LookUp(c, w)) else (c, w)
    case Inside(_, _) => if w.k < |w.job.q.steps| then Proceed(c, w) else (c, w)
    case Raised => (c, w)
  }

  function Move(s: State, i: nat): State {
    if i !in s.workers then s else
    var (client, w) := Act(s.client, s.workers[i]);
    State(client, s.workers[i := w])
  }

  function Run(s: State, moves: seq<nat>): State {
    if moves == [] then s else Move(Run(s, moves[..|moves| - 1]), moves[|moves| - 1])
  }

  // ----- what holds at the start ----------------------------------------------------------

  function Arriving(job: Job): Worker {
    Worker(job, 0, Progress(EMPTY, map[], {}, {}, [], []), Ready)
  }

  /** All calls are at their beginning, of valid requests, with one and the same executors. */
  ghost predicate Arrived(s: State, compute: Compute) {
    forall i :: i in s.workers ==>
      && s.workers[i] == Arriving(s.workers[i].job)
      && s.workers[i].job.compute == compute && Sequenced(s.workers[i].job.q.steps)
  }

  // ----- outputs --------------------------------------------------------------------------

  /** What a call has output is what evaluation from scratch gives, and the step it is inside has its input from it. */
  ghost predicate Fits(w: Worker, compute: Compute) {
    && w.job.compute == compute && Sequenced(w.job.q.steps) && w.k <= |w.job.q.steps|
    && w.p.outputs.Keys <= Done(w.job, w.k)
    && Extends(w.p.outputs, Scratch(w.job.q, compute, w.k))
    && (w.stage.Inside? ==> w.k < |w.job.q.steps| && InputOf(w) == Some(w.stage.input))
  }

  function InputOf(w: Worker): Option<Value>
    requires w.k < |w.job.q.steps|
  {
    StepInput(StepOf(w), w.job.q.inputs, w.p.outputs)
  }

  ghost predicate AllFit(s: State, compute: Compute) {
    Sound(s.client, compute) && forall i :: i in s.workers ==> Fits(s.workers[i], compute)
  }

  /** The step's outcome extends the outputs as evaluation from scratch does. */
  lemma NextFits(w: Worker, compute: Compute, p: Progress)
    requires Fits(w, compute) && w.k < |w.job.q.steps|
    requires p.outputs == w.p.outputs || (
      && StepInput(StepOf(w), w.job.q.inputs, w.p.outputs).Some?
      && StepOf(w).id in p.outputs && p.outputs == w.p.outputs[StepOf(w).id := p.outputs[StepOf(w).id]]
      && compute(StepOf(w).implementationId, StepInput(StepOf(w), w.job.q.inputs, w.p.outputs).value)
        == Some(p.outputs[StepOf(w).id]))
    ensures Fits(Next(w, p), compute)
  {
    hide StepInput, Done;
    var step, scratch := StepOf(w), Scratch(w.job.q, compute, w.k);
    DoneGrows(w.job, w.k);
    ScratchKeys(w.job, w.k);
    if StepInput(step, w.job.q.inputs, w.p.outputs).Some? {
      StepInputMonotone(step, w.job.q.inputs, w.p.outputs, scratch);
    }
  }

  lemma LookUpFits(c: Client, w: Worker, compute: Compute)
    requires Fits(w, compute) && Sound(c, compute) && w.k < |w.job.q.steps| && w.stage == Between
    ensures Fits(LookUp(c, w), compute)
  {
    hide StepInput, SignatureFor, Done, Scratch, Sound, Reusable, Sequenced;
    var step, q, resolved := StepOf(w), w.job.q, StepInput(StepOf(w), w.job.q.inputs, w.p.outputs);
    if resolved.None? {
      NextFits(w, compute, WaitStep(w.p, step));
    } else {
      var signature := SignatureFor(q, step, resolved.value);
      var r := Reusable(c, q.scope, q, step, signature);
      if r.Some? {
        ReusedOutputIsComputed(w.job, c, step, resolved.value);
        NextFits(w, compute, ReuseStep(w.p, step, r.value, resolved.value, signature));
      }
    }
  }

  lemma RunOutputs(job: Job, p: Progress, step: Step, input: Value, signature: Signature)
    ensures var p' := RunStep(job, p, step, input, signature);
      p'.outputs == match Executed(job, step, input)
        case Some(output) => p.outputs[step.id := output]
        case None => p.outputs
  {
    hide Begin, Finish, Put, ResultOf, Executed;
  }

  lemma ProceedFits(c: Client, w: Worker, compute: Compute)
    requires Fits(w, compute) && w.stage.Inside?
    ensures Fits(Proceed(c, w).1, compute)
  {
    hide StepInput, Done, Scratch, Sequenced, RunStep, Mutex.Owner, Mutex.Asks, Mutex.EndAttempt, Begin;
    var step, input := StepOf(w), w.stage.input;
    var w' := Proceed(c, w).1;
    if w.stage.phase == Mutex.Running {
      RunOutputs(w.job, w.p, step, input, Mutex.Asks(ThreadOf(w)));
    }
    if w'.stage == Between {
      NextFits(w, compute, w'.p);
    }
  }

  lemma PaperKeepsSound(c: Client, compute: Compute, r: Record)
    requires Sound(c, compute) && !r.Damaged? && (r.Work? ==> SoundRecord(r.result, compute))
    ensures Sound(Put(c, r), compute)
  {
    hide SoundRecord;
  }

  lemma HeadKeepsSound(c: Client, compute: Compute, scope: Scope, stepId: string, head: Option<string>)
    requires Sound(c, compute)
    ensures Sound(SetHead(c, scope, stepId, head), compute)
  {
    hide SoundRecord;
  }

  lemma EndKeepsSound(c: Client, w: Worker, compute: Compute)
    requires Fits(w, compute) && Sound(c, compute) && w.stage.Inside?
    ensures Sound(Mutex.EndAttempt(c, ThreadOf(w)), compute)
  {
    hide Sound, SoundRecord, StepInput, Put, SetHead, Done, Scratch, Sequenced, SignatureOf;
    var t := ThreadOf(w);
    var started := Mutex.Started(t);
    var done := match Executed(t.job, t.step, t.input)
      case Some(_) => started.(status := Succeeded)
      case None => started.(status := Failed, errorCode := Some("EXECUTOR_FAILED"));
    var kept := c;
    match Executed(t.job, t.step, t.input) {
      case Some(output) =>
        var r := ResultOf(t.job, t.step, Mutex.Asks(t), output);
        ResultIsSound(w, compute, output);
        PaperKeepsSound(c, compute, Work(r));
        kept := Put(c, Work(r));
      case None =>
    }
    PaperKeepsSound(kept, compute, AttemptRecord(done));
    HeadKeepsSound(Put(kept, AttemptRecord(done)), compute, done.scope, done.stepId, None);
  }

  lemma ResultIsSound(w: Worker, compute: Compute, output: Value)
    requires w.stage.Inside? && w.k < |w.job.q.steps| && w.job.compute == compute
    requires Executed(w.job, StepOf(w), w.stage.input) == Some(output)
    ensures SoundRecord(ResultOf(w.job, StepOf(w), Mutex.Asks(ThreadOf(w)), output), compute)
  {
    hide SignatureOf;
    var r, q := ResultOf(w.job, StepOf(w), Mutex.Asks(ThreadOf(w)), output), w.job.q;
    assert r.inputSignature
      == SignatureOf(r.scope, r.workflowId, q.w.version, r.stepId, r.implementationId, w.stage.input);
  }

  lemma ActFits(c: Client, w: Worker, compute: Compute)
    requires Fits(w, compute) && Sound(c, compute)
    ensures Fits(Act(c, w).1, compute) && Sound(Act(c, w).0, compute)
  {
    hide Sound, SoundRecord, StepInput, Put, SetHead, Done, Scratch, Sequenced, LookUp, RunStep, Mutex.EndAttempt;
    hide Mutex.Owner, LookupPreview, PlanOf;
    match w.stage
    case Ready =>
    case Previewed(plan) => PaperKeepsSound(c, compute, PlanRecord(plan));
    case Between => if w.k < |w.job.q.steps| { LookUpFits(c, w, compute); }
    case Inside(_, phase) =>
      ProceedFits(c, w, compute);
      EndKeepsSound(c, w, compute);
      var started := Mutex.Started(ThreadOf(w));
      PaperKeepsSound(c, compute, AttemptRecord(started));
      HeadKeepsSound(Put(c, AttemptRecord(started)), compute, started.scope, started.stepId, Some(started.attemptId));
    case Raised =>
  }

  lemma {:induction false} RunsFit(s: State, compute: Compute, moves: seq<nat>)
    requires Arrived(s, compute) && Sound(s.client, compute)
    ensures AllFit(Run(s, moves), compute)
  {
    hide Act, Fits, Sound, Sequenced;
    if moves == [] {
      forall i | i in s.workers ensures Fits(s.workers[i], compute) { ArrivingFits(s.workers[i].job, compute); }
    } else {
      RunsFit(s, compute, moves[..|moves| - 1]);
      var before, i := Run(s, moves[..|moves| - 1]), moves[|moves| - 1];
      if i in before.workers { ActFits(before.client, before.workers[i], compute); }
    }
  }

  lemma ArrivingFits(job: Job, compute: Compute)
    requires job.compute == compute && Sequenced(job.q.steps)
    ensures Fits(Arriving(job), compute)
  {
  }

  /** However the calls interleave, every output of every call is what evaluating its workflow from scratch gives. */
  lemma ConcurrentOutputsAreScratch(s: State, compute: Compute, moves: seq<nat>, i: nat)
    requires Arrived(s, compute) && Sound(s.client, compute) && i in Run(s, moves).workers
    ensures var w := Run(s, moves).workers[i];
      w.k <= |w.job.q.steps| && Extends(w.p.outputs, Scratch(w.job.q, compute, w.k))
  {
    hide Run, Scratch;
    RunsFit(s, compute, moves);
    assert Fits(Run(s, moves).workers[i], compute);
  }

  // ----- mutual exclusion -----------------------------------------------------------------

  predicate Running(w: Worker) {
    w.stage.Inside? && w.stage.phase == Mutex.Running && w.k < |w.job.q.steps|
  }

  ghost predicate Overlap(w: Worker, v: Worker) {
    Running(w) && Running(v) && Mutex.SlotOf(ThreadOf(w)) == Mutex.SlotOf(ThreadOf(v))
  }

  /** At most one executor call per step is in flight. */
  ghost predicate Exclusive(s: State) {
    forall i, j :: i in s.workers && j in s.workers && Overlap(s.workers[i], s.workers[j]) ==> i == j
  }

  /** While a call's executor runs, the head of its step names exactly its attempt, and it is active. */
  ghost predicate HeadsAreHeld(s: State) {
    forall i :: i in s.workers && Running(s.workers[i]) ==> Mutex.Holds(s.client, ThreadOf(s.workers[i]))
  }

  /** Only an executable step gets past the check. */
  ghost predicate OnlyExecutableRuns(s: State) {
    forall i :: i in s.workers ==> PastCheckIsExecutable(s.workers[i])
  }

  ghost predicate PastCheckIsExecutable(w: Worker) {
    w.k < |w.job.q.steps| && w.stage.Inside? && (w.stage.phase == Mutex.Clear || w.stage.phase == Mutex.Running) ==>
      StepOf(w).executable
  }

  function JobsOf(s: State): map<nat, Job> {
    map i | i in s.workers :: s.workers[i].job
  }

  /** Every attempt id of every call is drawn new. */
  ghost predicate DistinctIds(jobs: map<nat, Job>) {
    forall i, j, a: nat, b: nat :: At(jobs, i, a) && At(jobs, j, b) && (i != j || a != b) ==>
      IdAt(jobs[i], a) != IdAt(jobs[j], b)
  }

  /** The i-th call has an a-th step. */
  predicate At(jobs: map<nat, Job>, i: nat, a: nat) {
    i in jobs && a < |jobs[i].q.steps|
  }

  function IdAt(job: Job, a: nat): string
    requires a < |job.q.steps|
  {
    job.newId(job.q.steps[a].id)
  }

  /** The signature that a call asks for at its a-th step, if it gets an input for it; evaluation from scratch tells. */
  function Asked(job: Job, a: nat): Option<Signature>
    requires a < |job.q.steps|
  {
    match StepInput(job.q.steps[a], job.q.inputs, Scratch(job.q, job.compute, a))
    case None => None
    case Some(input) => Some(SignatureFor(job.q, job.q.steps[a], input))
  }

  /** The two calls may execute the same step of the same project under different signatures. */
  ghost predicate Differ(job: Job, a: nat, other: Job, b: nat)
    requires a < |job.q.steps| && b < |other.q.steps|
  {
    && job.q.scope == other.q.scope && job.q.steps[a].id == other.q.steps[b].id
    && job.q.steps[a].executable && other.q.steps[b].executable
    && Asked(job, a).Some? && Asked(other, b).Some? && Asked(job, a) != Asked(other, b)
  }

  /** Calls that may execute the same step ask for one and the same signature on it. */
  ghost predicate OneSignature(jobs: map<nat, Job>) {
    forall i, j, a: nat, b: nat :: At(jobs, i, a) && At(jobs, j, b) ==> !Differ(jobs[i], a, jobs[j], b)
  }

  ghost predicate Guarded(s: State, compute: Compute) {
    && AllFit(s, compute) && HeadsAreHeld(s) && OnlyExecutableRuns(s)
    && DistinctIds(JobsOf(s)) && OneSignature(JobsOf(s))
  }

  lemma ActKeepsJob(c: Client, w: Worker)
    ensures Act(c, w).1.job == w.job
  {
    hide StepInput, SignatureFor, Reusable, WaitStep, BlockStep, ReuseStep, RunStep, Mutex.Owner, Mutex.EndAttempt;
    hide Begin, LookupPreview, PlanOf, Mutex.Asks;
  }

  lemma MoveKeepsJobs(s: State, i: nat)
    ensures JobsOf(Move(s, i)) == JobsOf(s)
  {
    hide Act;
    if i in s.workers { ActKeepsJob(s.client, s.workers[i]); }
  }

  /** What a call inside a step asks for is what evaluation from scratch asks for. */
  lemma AsksAsScratch(w: Worker, compute: Compute)
    requires Fits(w, compute) && w.stage.Inside?
    ensures Asked(w.job, w.k) == Some(Mutex.Asks(ThreadOf(w)))
  {
    hide Done, Scratch, StepInput, SignatureFor, Sequenced;
    StepInputMonotone(StepOf(w), w.job.q.inputs, w.p.outputs, Scratch(w.job.q, compute, w.k));
  }

  lemma RivalsAskAlike(s: State, compute: Compute, i: nat, j: nat)
    requires Guarded(s, compute) && i in s.workers && j in s.workers
    requires s.workers[i].stage.Inside? && s.workers[j].stage.Inside?
    requires s.workers[i].k < |s.workers[i].job.q.steps| && s.workers[j].k < |s.workers[j].job.q.steps|
    requires StepOf(s.workers[i]).executable && StepOf(s.workers[j]).executable
    requires Mutex.SlotOf(ThreadOf(s.workers[i])) == Mutex.SlotOf(ThreadOf(s.workers[j]))
    ensures Mutex.Asks(ThreadOf(s.workers[i])) == Mutex.Asks(ThreadOf(s.workers[j]))
  {
    hide Fits, Asked, Mutex.Asks, Sound, DistinctIds, HeadsAreHeld, OnlyExecutableRuns;
    var w, v := s.workers[i], s.workers[j];
    AsksAsScratch(w, compute);
    AsksAsScratch(v, compute);
    assert JobsOf(s)[i] == w.job && JobsOf(s)[j] == v.job;
    assert !Differ(w.job, w.k, v.job, v.k);
  }

  lemma HeldIsExclusive(s: State)
    requires HeadsAreHeld(s) && DistinctIds(JobsOf(s))
    ensures Exclusive(s)
  {
    forall i, j | i in s.workers && j in s.workers && Overlap(s.workers[i], s.workers[j]) ensures i == j {
      var w, v := s.workers[i], s.workers[j];
      assert Mutex.Holds(s.client, ThreadOf(w)) && Mutex.Holds(s.client, ThreadOf(v));
      assert JobsOf(s)[i] == w.job && JobsOf(s)[j] == v.job;
      assert IdAt(w.job, w.k) == IdAt(v.job, v.k);
    }
  }

  /** Saving a plan disturbs no hold. */
  lemma PaperKeepsHold(c: Client, r: Record, t: Mutex.Thread)
    requires Mutex.Holds(c, t) && !r.Damaged? && !r.AttemptRecord?
    ensures Mutex.Holds(Put(c, r), t)
  {
    hide SignatureFor;
  }

  /** The executor of call `j` runs on; call `i` moves. */
  lemma HoldSurvives(s: State, compute: Compute, i: nat, j: nat)
    requires Guarded(s, compute) && i in s.workers && j in s.workers && i != j && Running(s.workers[j])
    ensures Mutex.Holds(Act(s.client, s.workers[i]).0, ThreadOf(s.workers[j]))
  {
    hide Mutex.EndAttempt, Mutex.Asks, Mutex.Holds, Begin, LookUp, Mutex.Owner, AllFit, OneSignature;
    hide LookupPreview, PlanOf, RunStep, Next, Put;
    var w, t := s.workers[i], ThreadOf(s.workers[j]);
    assert Mutex.Holds(s.client, t);
    HeldIsExclusive(s);
    assert !Overlap(w, s.workers[j]);
    if w.stage.Previewed? { PaperKeepsHold(s.client, PlanRecord(w.stage.plan), t); }
    if w.stage.Inside? && w.k < |w.job.q.steps| {
      var u := ThreadOf(w);
      assert JobsOf(s)[i] == w.job && JobsOf(s)[j] == s.workers[j].job;
      assert IdAt(w.job, w.k) != IdAt(s.workers[j].job, s.workers[j].k);
      if Mutex.SlotOf(t) != Mutex.SlotOf(u) {
        Mutex.OthersKeepHold(s.client, t, u);
      } else if w.stage.phase == Mutex.Clear {
        assert PastCheckIsExecutable(w) && PastCheckIsExecutable(s.workers[j]);
        RivalsAskAlike(s, compute, i, j);
        OwnedForAll(s.client, t, u);
      }
    }
  }

  lemma OwnedForAll(c: Client, t: Mutex.Thread, u: Mutex.Thread)
    requires Mutex.Holds(c, t) && Mutex.SlotOf(t) == Mutex.SlotOf(u) && Mutex.Asks(t) == Mutex.Asks(u)
    ensures Mutex.Owner(c, u).Some?
  {
    hide SignatureFor;
  }

  /** A call that has just started its attempt holds the head. */
  lemma StartHolds(c: Client, w: Worker)
    requires !Running(w) && Running(Act(c, w).1)
    ensures Mutex.Holds(Act(c, w).0, ThreadOf(Act(c, w).1))
  {
    hide StepInput, SignatureFor, Reusable, WaitStep, BlockStep, ReuseStep, RunStep, Mutex.Owner, Mutex.EndAttempt;
    hide Begin, LookupPreview, PlanOf, Mutex.Asks, Mutex.Holds, Mutex.Started;
    Mutex.BeginHolds(c, ThreadOf(w));
    Mutex.PhaseAside(Act(c, w).0, ThreadOf(w), ThreadOf(Act(c, w).1));
  }

  lemma RunningEnds(c: Client, w: Worker)
    requires Running(w)
    ensures !Running(Act(c, w).1)
  {
    hide RunStep, Mutex.EndAttempt, Mutex.Asks;
  }

  lemma CheckedIsExecutable(c: Client, w: Worker)
    requires PastCheckIsExecutable(w)
    ensures PastCheckIsExecutable(Act(c, w).1)
  {
    hide StepInput, SignatureFor, Reusable, WaitStep, BlockStep, ReuseStep, RunStep, Mutex.Owner, Mutex.EndAttempt;
    hide Begin, LookupPreview, PlanOf, Mutex.Asks;
  }

  lemma MoveKeepsGuard(s: State, compute: Compute, i: nat)
    requires Guarded(s, compute) && i in s.workers
    ensures Guarded(Move(s, i), compute)
  {
    hide Act, Fits, Sound, DistinctIds, OneSignature, Mutex.Holds, PastCheckIsExecutable;
    MoveKeepsJobs(s, i);
    ActFits(s.client, s.workers[i], compute);
    CheckedIsExecutable(s.client, s.workers[i]);
    var s', w := Move(s, i), s.workers[i];
    forall j | j in s'.workers && Running(s'.workers[j]) ensures Mutex.Holds(s'.client, ThreadOf(s'.workers[j])) {
      if j != i {
        HoldSurvives(s, compute, i, j);
      } else {
        if Running(w) { RunningEnds(s.client, w); }
        StartHolds(s.client, w);
      }
    }
  }

  lemma {:induction false} RunsAreGuarded(s: State, compute: Compute, moves: seq<nat>)
    requires Arrived(s, compute) && Sound(s.client, compute) && DistinctIds(JobsOf(s)) && OneSignature(JobsOf(s))
    ensures Guarded(Run(s, moves), compute)
  {
    hide Move, Fits, Sound, DistinctIds, OneSignature, Mutex.Holds;
    if moves == [] {
      RunsFit(s, compute, moves);
    } else {
      RunsAreGuarded(s, compute, moves[..|moves| - 1]);
      var before, i := Run(s, moves[..|moves| - 1]), moves[|moves| - 1];
      if i in before.workers { MoveKeepsGuard(before, compute, i); } else { NobodyMoves(before, i); }
    }
  }

  lemma NobodyMoves(s: State, i: nat)
    requires i !in s.workers
    ensures Move(s, i) == s
  {
  }

  /** In every interleaving of whole calls that agree on the signature of the steps they share, at most one executor
      call per step is in flight, and while it is, the step's head names exactly its active attempt. */
  lemma ConcurrentCallsAreExclusive(s: State, compute: Compute, moves: seq<nat>)
    requires Arrived(s, compute) && Sound(s.client, compute) && DistinctIds(JobsOf(s)) && OneSignature(JobsOf(s))
    ensures Exclusive(Run(s, moves)) && HeadsAreHeld(Run(s, moves))
  {
    hide Run, AllFit, OneSignature, OnlyExecutableRuns, DistinctIds, Exclusive;
    RunsAreGuarded(s, compute, moves);
    HeldIsExclusive(Run(s, moves));
  }

  /** The calls are for one and the same request, at whatever times, for whatever principals, with whatever failures. */
  ghost predicate SameRequest(jobs: map<nat, Job>) {
    forall i, j :: i in jobs && j in jobs ==> SameWork(jobs[i], jobs[j])
  }

  predicate SameWork(job: Job, other: Job) {
    && job.q.scope == other.q.scope && job.q.w == other.q.w
    && job.q.steps == other.q.steps && job.q.inputs == other.q.inputs
  }

  lemma {:induction false} SameWorkSameScratch(job: Job, other: Job, k: nat)
    requires SameWork(job, other) && job.compute == other.compute && k <= |job.q.steps|
    ensures Scratch(job.q, job.compute, k) == Scratch(other.q, other.compute, k)
  {
    hide StepInput;
    if k > 0 {
      SameWorkSameScratch(job, other, k - 1);
    }
  }

  lemma SameRequestAgrees(s: State, compute: Compute)
    requires Arrived(s, compute) && SameRequest(JobsOf(s))
    ensures OneSignature(JobsOf(s))
  {
    hide StepInput, SignatureFor, Scratch, Sequenced;
    var jobs := JobsOf(s);
    forall i, j, a: nat, b: nat | At(jobs, i, a) && At(jobs, j, b)
      ensures !Differ(jobs[i], a, jobs[j], b)
    {
      assert SameWork(jobs[i], jobs[j]);
      StepsAreUnique(jobs[i], a, b);
      SameWorkSameScratch(jobs[i], jobs[j], a);
      SameSignature(jobs[i].q, jobs[j].q, a);
    }
  }

  lemma StepsAreUnique(job: Job, a: nat, b: nat)
    requires Sequenced(job.q.steps) && a < |job.q.steps| && b < |job.q.steps|
    ensures job.q.steps[a].id == job.q.steps[b].id ==> a == b
  {
  }

  lemma SameSignature(q: Query, r: Query, a: nat)
    requires q.scope == r.scope && q.w == r.w && q.steps == r.steps && a < |q.steps|
    ensures forall input :: SignatureFor(q, q.steps[a], input) == SignatureFor(r, r.steps[a], input)
  {
  }

  /** However often one request is made at once, no step of it is ever executed twice at the same time. */
  lemma OneRequestIsNeverExecutedTwiceAtOnce(s: State, compute: Compute, moves: seq<nat>)
    requires Arrived(s, compute) && Sound(s.client, compute) && DistinctIds(JobsOf(s)) && SameRequest(JobsOf(s))
    ensures Exclusive(Run(s, moves))
  {
    hide Run, SameRequest, OneSignature, DistinctIds, Exclusive, HeadsAreHeld, Arrived, Sound;
    SameRequestAgrees(s, compute);
    ConcurrentCallsAreExclusive(s, compute, moves);
  }

  // ----- a call alone is the engine's run -------------------------------------------------

  function Solo(s: State, i: nat, m: nat): State {
    if m == 0 then s else Move(Solo(s, i, m - 1), i)
  }

  lemma {:induction false} SoloAgain(s: State, i: nat, m: nat, n: nat)
    ensures Solo(Solo(s, i, m), i, n) == Solo(s, i, m + n)
    decreases n
  {
    hide Move;
    if n > 0 {
      SoloAgain(s, i, m, n - 1);
    }
  }

  /** The call, about to take its next step, has done what the run `p` has. */
  ghost predicate Stands(s: State, i: nat, job: Job, k: nat, p: Progress) {
    && i in s.workers && s.client == p.client
    && var w := s.workers[i];
    w.job == job && w.k == k && w.stage == Between && w.p.(client := p.client) == p
  }

  lemma RunStepAlone(c: Client, w: Worker, input: Value)
    requires w.k < |w.job.q.steps|
    ensures var t := Mutex.Thread(w.job, StepOf(w), input, Mutex.Running);
      var p := RunStep(w.job, w.p, StepOf(w), input, Mutex.Asks(t));
      var client := Mutex.EndAttempt(Begin(c, Mutex.Started(t)), t);
      RunStep(w.job, w.p.(client := c), StepOf(w), input, Mutex.Asks(t)) == p.(client := client)
  {
    hide SignatureFor, Executed, ResultOf, Begin, Finish, Put;
  }

  /** Lookup, check, start, and the end after the executor. */
  lemma ExecutesAlone(s: State, i: nat, job: Job, k: nat, p: Progress, input: Value)
    requires Stands(s, i, job, k, p) && k < |job.q.steps|
    requires StepInput(job.q.steps[k], job.q.inputs, p.outputs) == Some(input)
    requires var step := job.q.steps[k];
      var signature := SignatureFor(job.q, step, input);
      && !Unreadable(s.client, job.q.scope, job.q.w.id, step.id, signature) && step.executable
      && Reusable(s.client, job.q.scope, job.q, step, signature).None?
      && ActiveAttempt(s.client, job.q.scope, step.id, signature).None?
    ensures Stands(Solo(s, i, 4), i, job, k + 1, ExecuteStep(job, p, job.q.steps[k]))
  {
    hide StepInput, SignatureFor, Reusable, ActiveAttempt, Begin, RunStep, Mutex.EndAttempt, NewAttempt, DependencySet;
    hide Unreadable;
    assert Solo(s, i, 0) == s && Solo(s, i, 1) == Move(s, i) && Solo(s, i, 2) == Move(Solo(s, i, 1), i);
    assert Solo(s, i, 3) == Move(Solo(s, i, 2), i) && Solo(s, i, 4) == Move(Solo(s, i, 3), i);
    RunStepAlone(s.client, s.workers[i], input);
  }

  /** A step takes four moves at most. */
  lemma TakesStepAlone(s: State, i: nat, job: Job, k: nat, p: Progress) returns (m: nat)
    requires Stands(s, i, job, k, p) && k < |job.q.steps| && !Raises(job, p, job.q.steps[k])
    ensures m <= 4 && Stands(Solo(s, i, m), i, job, k + 1, ExecuteStep(job, p, job.q.steps[k]))
  {
    hide StepInput, SignatureFor, Reusable, ActiveAttempt, RunStep, Mutex.EndAttempt, DependencySet, Unreadable;
    var step := job.q.steps[k];
    assert Solo(s, i, 0) == s && Solo(s, i, 1) == Move(s, i) && Solo(s, i, 2) == Move(Solo(s, i, 1), i);
    var resolved := StepInput(step, job.q.inputs, p.outputs);
    m := 1;
    if resolved.Some? {
      var signature := SignatureFor(job.q, step, resolved.value);
      if Reusable(s.client, job.q.scope, job.q, step, signature).None? {
        if ActiveAttempt(s.client, job.q.scope, step.id, signature).Some? || !step.executable {
          m := 2;
        } else {
          m := 4;
          ExecutesAlone(s, i, job, k, p, resolved.value);
        }
      }
    }
  }

  lemma {:induction false} StepsAlone(s: State, i: nat, job: Job, c: Client, k: nat) returns (m: nat)
    requires Stands(s, i, job, 0, After(job, c, 0)) && k <= |job.q.steps| && RunsTo(job, c, k)
    ensures Stands(Solo(s, i, m), i, job, k, After(job, c, k))
  {
    hide Stands, ExecuteStep, Raises, Move;
    if k == 0 {
      m := 0;
      assert Solo(s, i, 0) == s;
    } else {
      var before := StepsAlone(s, i, job, c, k - 1);
      var more := TakesStepAlone(Solo(s, i, before), i, job, k - 1, After(job, c, k - 1));
      SoloAgain(s, i, before, more);
      m := before + more;
    }
  }

  /** Undisturbed, a call that gets through does what the engine's run does: the same store, outputs, failures, blocks,
      decisions and attempts. */
  lemma AloneIsComplete(s: State, i: nat) returns (m: nat)
    requires i in s.workers && s.workers[i] == Arriving(s.workers[i].job)
    requires RunsThrough(s.workers[i].job, s.client)
    ensures var job := s.workers[i].job;
      Stands(Solo(s, i, m), i, job, |job.q.steps|, Complete(job, s.client))
  {
    hide After, RunsTo, LookupPreview, PlanOf, Proceed, LookUp;
    var job := s.workers[i].job;
    assert Solo(s, i, 0) == s && Solo(s, i, 1) == Move(s, i) && Solo(s, i, 2) == Move(Solo(s, i, 1), i);
    AtFirst(job, WithPlan(s.client, job.q));
    var rest := StepsAlone(Solo(s, i, 2), i, job, WithPlan(s.client, job.q), |job.q.steps|);
    SoloAgain(s, i, 2, rest);
    m := 2 + rest;
  }
}
