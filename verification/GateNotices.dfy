/** When the outputs of rejected records can show in the notices: exactly when a step falls back to its latest record
    and records that share the latest completion time would be reported differently. */
module GateNotices {
  import opened Options
  import opened Json
  import opened Types
  import opened HandoffTypes
  import opened Core
  import opened Store
  import opened Planning
  import opened Gate
  import opened GateLaws
  import opened GateInfluence

  // ----- leading records ------------------------------------------------------------------

  /** A record of the step with the greatest completion time. */
  ghost predicate Leader(index: Index, stepId: string, k: Slip) {
    && k in index && k.0 == stepId
    && forall other :: other in index && other.0 == stepId ==> index[other].completedAt <= index[k].completedAt
  }

  /** How the step is reported when it falls back to this record. */
  function NoticeFor(d: Desk, step: Step, signature: Signature, k: Slip): Notice
    requires k in d.index
  {
    NoticeOf(FoundCandidate(d, step, signature, d.index[k], false))
  }

  /** All records sharing the step's greatest completion time are reported alike. */
  ghost predicate LeadersAgree(d: Desk, step: Step, signature: Signature) {
    forall j, k :: Leader(d.index, step.id, j) && Leader(d.index, step.id, k) ==>
      NoticeFor(d, step, signature, j) == NoticeFor(d, step, signature, k)
  }

  /** The step's input is known and no record is stored under its signature. */
  ghost predicate FallsBackOn(d: Desk, outputs: map<string, Value>, step: Step) {
    && StepInput(step, d.q.inputs, outputs).Some?
    && Exact(d.index, step.id, SignatureFor(d.q, step, StepInput(step, d.q.inputs, outputs).value)).None?
  }

  ghost predicate Agreeing(d: Desk, outputs: map<string, Value>, step: Step) {
    FallsBackOn(d, outputs, step) ==>
      LeadersAgree(d, step, SignatureFor(d.q, step, StepInput(step, d.q.inputs, outputs).value))
  }

  /** Every step that falls back to its latest record has leaders that agree. */
  ghost predicate AllAgree(d: Desk) {
    forall i :: 0 <= i < |d.q.steps| ==> Agreeing(d, Sweep(d, i).outputs, d.q.steps[i])
  }

  lemma {:induction false} FirstExists(le: DigestOrder, index: Index, stepId: string, some: set<Slip>) returns (k: Slip)
    requires some != {} && forall s :: s in some ==> s in index && s.0 == stepId
    ensures k in some && forall other :: other in some ==> Ahead(le, k, other, index)
  {
    hide Ahead;
    k :| k in some;
    AheadTotal(le, k, k, index);
    if some != {k} {
      var first := FirstExists(le, index, stepId, some - {k});
      AheadTotal(le, k, first, index);
      forall other | other in some && Ahead(le, k, first, index) ensures Ahead(le, k, other, index) {
        if other != k { AheadTransitive(le, k, first, other, index); }
      }
      k := if Ahead(le, k, first, index) then k else first;
    }
  }

  /** A step with a record has a latest one, and it is a leader. */
  lemma LatestLeads(le: DigestOrder, index: Index, stepId: string, any: Slip) returns (k: Slip)
    requires any in index && any.0 == stepId
    ensures k in index && k.0 == stepId && Leader(index, stepId, k) && Latest(le, index, stepId) == Some(index[k])
  {
    hide TotalOrder;
    var all := set s | s in index && s.0 == stepId;
    assert any in all;
    k := FirstExists(le, index, stepId, all);
    LatestIsTheLeader(le, index, stepId, k);
  }

  lemma SameLeaders(a: Desk, b: Desk, stepId: string, k: Slip)
    requires Replaced(a, b)
    ensures Leader(a.index, stepId, k) <==> Leader(b.index, stepId, k)
  {
    hide OutputSignature, ApprovedSlip;
    forall s | s in a.index ensures s in b.index && b.index[s].completedAt == a.index[s].completedAt {
      assert SameButOutput(a.index[s], b.index[s]);
    }
  }

  lemma FoundNotice(a: Desk, b: Desk, step: Step, signature: Signature, r: WorkResult, s: WorkResult, matched: bool)
    requires a.q == b.q && a.recipient == b.recipient && a.policies == b.policies
    requires SameButOutput(r, s) && r.outputSignature == OutputSignature(r.output)
    ensures NoticeOf(FoundCandidate(a, step, signature, r, matched))
      == NoticeOf(FoundCandidate(b, step, signature, s, matched))
  {
    hide VerdictsFor, Decide;
    VerdictsIgnoreOutput(a, b, step, signature, r, s, matched);
  }

  lemma SlipNotice(a: Desk, b: Desk, step: Step, signature: Signature, k: Slip)
    requires Replaced(a, b) && Whole(a) && k in a.index
    ensures k in b.index && NoticeFor(a, step, signature, k) == NoticeFor(b, step, signature, k)
  {
    hide FoundCandidate, NoticeOf, OutputSignature, ApprovedSlip;
    FoundNotice(a, b, step, signature, a.index[k], b.index[k], false);
  }

  // ----- agreement is enough --------------------------------------------------------------

  lemma FallbackIgnoresOutput(a: Desk, b: Desk, step: Step, signature: Signature)
    requires Replaced(a, b) && Whole(a) && LeadersAgree(a, step, signature)
    requires (step.id, signature) !in a.index
    ensures NoticeOf(JudgeInput(a, step, signature)) == NoticeOf(JudgeInput(b, step, signature))
  {
    hide FoundCandidate, NoticeOf, Latest, Leads, Leader, Whole;
    SameDesk(a, b);
    if any :| any in a.index && any.0 == step.id {
      var j := LatestLeads(a.order, a.index, step.id, any);
      var k := LatestLeads(b.order, b.index, step.id, any);
      SameLeaders(a, b, step.id, k);
      LeaderIsThere(a.index, step.id, k);
      SlipNotice(a, b, step, signature, k);
      assert NoticeFor(a, step, signature, j) == NoticeFor(a, step, signature, k);
    } else {
      NoRecordsNoLatest(a.order, a.index, step.id);
      NoRecordsNoLatest(b.order, b.index, step.id);
    }
  }

  lemma LeaderIsThere(index: Index, stepId: string, k: Slip)
    requires Leader(index, stepId, k)
    ensures k in index && k.0 == stepId
  {
  }

  lemma SameDesk(a: Desk, b: Desk)
    requires Replaced(a, b)
    ensures b == a.(index := b.index) && b.index.Keys == a.index.Keys && a.q == b.q
  {
  }

  lemma NoticeIgnoresOutput(a: Desk, b: Desk, outputs: map<string, Value>, step: Step)
    requires Replaced(a, b) && Whole(a) && Agreeing(a, outputs, step)
    ensures NoticeOf(Judge(a, outputs, step)) == NoticeOf(Judge(b, outputs, step))
  {
    hide StepInput, SignatureFor, FoundCandidate, NoticeOf, Replaced, Latest, LeadersAgree, PendingCandidate;
    SameDesk(a, b);
    var resolved := StepInput(step, a.q.inputs, outputs);
    if resolved.Some? {
      var signature := SignatureFor(a.q, step, resolved.value);
      if (step.id, signature) in a.index {
        ExactNotice(a, b, step, signature);
      } else {
        FallbackIgnoresOutput(a, b, step, signature);
      }
    }
  }

  lemma ExactNotice(a: Desk, b: Desk, step: Step, signature: Signature)
    requires Replaced(a, b) && Whole(a) && (step.id, signature) in a.index
    ensures NoticeOf(JudgeInput(a, step, signature)) == NoticeOf(JudgeInput(b, step, signature))
  {
    hide FoundCandidate, NoticeOf, Latest, OutputSignature, ApprovedSlip;
    var k := (step.id, signature);
    FoundNotice(a, b, step, signature, a.index[k], b.index[k], true);
  }

  lemma {:induction false} SameNoticesSoFar(a: Desk, b: Desk, k: nat)
    requires Replaced(a, b) && Whole(a) && AllAgree(a) && Sequenced(a.q.steps) && k <= |a.q.steps|
    ensures |Sweep(a, k).candidates| == |Sweep(b, k).candidates| == k
    ensures forall i :: 0 <= i < k ==> NoticeOf(Sweep(a, k).candidates[i]) == NoticeOf(Sweep(b, k).candidates[i])
  {
    hide Judge, Replaced, Whole, Approved, Agreeing, NoticeOf;
    if k > 0 {
      SameNoticesSoFar(a, b, k - 1);
      SweptAlike(a, b, k - 1);
      NoticeIgnoresOutput(a, b, Sweep(a, k - 1).outputs, a.q.steps[k - 1]);
      SameDesk(a, b);
    }
  }

  lemma {:induction false} SameNoticesSorted(cs: seq<Candidate>, es: seq<Candidate>)
    requires AllSameApproval(cs, es) && Sorted(cs).Some? && Sorted(es).Some?
    requires forall i :: 0 <= i < |cs| ==> NoticeOf(cs[i]) == NoticeOf(es[i])
    ensures Sorted(cs).value.1 == Sorted(es).value.1
  {
    hide Approved, ItemOf, ItemGuard, NoticeGuard, NoticeOf;
    if cs != [] {
      assert SameApproval(cs[|cs| - 1], es[|es| - 1]);
      SameNoticesSorted(cs[..|cs| - 1], es[..|es| - 1]);
    }
  }

  ghost predicate SameNotices(a: Desk, b: Desk) {
    && Evaluated(a).Some? && Evaluated(b).Some?
    && Evaluated(a).value.context.blocked == Evaluated(b).value.context.blocked
  }

  /** Both evaluations finish, with approvals alike, and their notices are those of their candidates. */
  lemma BothFinish(a: Desk, b: Desk)
    requires Replaced(a, b) && Whole(a) && WellFormed(a)
    ensures Evaluated(a).Some? && Evaluated(b).Some?
    ensures var cs, es := SweepAll(a).candidates, SweepAll(b).candidates;
      && AllSameApproval(cs, es) && |cs| == |a.q.steps|
      && Sorted(cs).Some? && Sorted(es).Some?
      && Evaluated(a).value.context.blocked == Sorted(cs).value.1
      && Evaluated(b).value.context.blocked == Sorted(es).value.1
  {
    hide Evaluated, Replaced, Whole, Sorted, IsIdentifier, WellFormed;
    ReplacedIsWellFormed(a, b);
    WellFormedIsSequenced(a);
    EvaluationIsTotal(a);
    EvaluationIsTotal(b);
    SameDesk(a, b);
    SweptAlike(a, b, |a.q.steps|);
    ItemsAndNoticesPartition(a);
    ItemsAndNoticesPartition(b);
  }

  lemma WellFormedIsSequenced(d: Desk)
    requires WellFormed(d)
    ensures Sequenced(d.q.steps)
  {
  }

  /** Where the leaders of every fallback agree, replacing the outputs of rejected records changes no notice. */
  lemma AgreementHidesOutputs(a: Desk, b: Desk)
    requires Replaced(a, b) && Whole(a) && WellFormed(a) && AllAgree(a)
    ensures SameNotices(a, b)
  {
    hide Evaluated, Replaced, Whole, Sorted, WellFormed, AllAgree, NoticeOf;
    BothFinish(a, b);
    SameDesk(a, b);
    WellFormedIsSequenced(a);
    SameNoticesSoFar(a, b, |a.q.steps|);
    SameNoticesSorted(SweepAll(a).candidates, SweepAll(b).candidates);
  }

  // ----- and it is needed -----------------------------------------------------------------

  function Rewritten(r: WorkResult, output: Value): WorkResult {
    r.(output := output, outputSignature := OutputSignature(output))
  }

  /** The desk with `high` as the output of one record and `low` as that of the step's other records. */
  function Promoted(d: Desk, stepId: string, m: Slip, high: Value, low: Value): Desk {
    d.(index := map k | k in d.index ::
      if k.0 != stepId then d.index[k] else Rewritten(d.index[k], if k == m then high else low))
  }

  lemma SomeOutputIsLarger(le: DigestOrder) returns (high: Value, low: Value)
    ensures !le(OutputSignature(high), OutputSignature(low))
  {
    hide OutputSignature, TotalOrder;
    high, low := Null, Bool(true);
    OrderTotal(le, OutputSignature(high), OutputSignature(low));
    if le(OutputSignature(high), OutputSignature(low)) {
      if le(OutputSignature(low), OutputSignature(high)) {
        OutputSignatureIdentifiesOutput(high, low);
      }
      high, low := low, high;
    }
  }

  /** On a step that falls back no record is approved. */
  lemma FallbackApprovesNothing(a: Desk, i: nat, k: Slip)
    requires Sequenced(a.q.steps) && i < |a.q.steps| && FallsBackOn(a, Sweep(a, i).outputs, a.q.steps[i])
    requires k.0 == a.q.steps[i].id
    ensures !ApprovedSlip(a, k)
  {
    hide Judge, StepInput, SignatureFor, Approves, Approved, Sweep, VerdictsFor, OutputSignature;
    var cs := SweepAll(a).candidates;
    CandidateAt(a, i);
    forall c | c in cs && Approved(c) && c.result.Some? ensures SlipOf(c.result.value) != k {
      var j :| 0 <= j < |cs| && cs[j] == c;
      CandidateAt(a, j);
      ApprovedExactly(a, Sweep(a, j).outputs, a.q.steps[j]);
    }
  }

  lemma RewrittenIsSame(a: Desk, k: Slip, output: Value)
    requires Whole(a) && k in a.index
    ensures SameButOutput(a.index[k], Rewritten(a.index[k], output)) && SameButOutput(a.index[k], a.index[k])
  {
    hide OutputSignature;
  }

  lemma PromotedIsReplaced(a: Desk, i: nat, m: Slip, high: Value, low: Value)
    requires Sequenced(a.q.steps) && i < |a.q.steps| && FallsBackOn(a, Sweep(a, i).outputs, a.q.steps[i]) && Whole(a)
    ensures Replaced(a, Promoted(a, a.q.steps[i].id, m, high, low))
  {
    hide FallsBackOn, OutputSignature, ApprovedSlip, Sweep, Sequenced, Whole, SameButOutput, Rewritten;
    var b := Promoted(a, a.q.steps[i].id, m, high, low);
    forall k | k in a.index ensures SameButOutput(a.index[k], b.index[k]) {
      RewrittenIsSame(a, k, high);
      RewrittenIsSame(a, k, low);
    }
    forall k | k in a.index && ApprovedSlip(a, k) ensures b.index[k] == a.index[k] {
      if k.0 == a.q.steps[i].id { FallbackApprovesNothing(a, i, k); }
    }
  }

  lemma PromotedLeads(a: Desk, stepId: string, m: Slip, high: Value, low: Value)
    requires Leader(a.index, stepId, m) && !a.order(OutputSignature(high), OutputSignature(low))
    ensures var b := Promoted(a, stepId, m, high, low);
      m in b.index && Latest(b.order, b.index, stepId) == Some(b.index[m])
  {
    hide OutputSignature, TotalOrder;
    var b := Promoted(a, stepId, m, high, low);
    AheadTotal(b.order, m, m, b.index);
    assert Leads(b.order, b.index, stepId, m);
    LatestIsTheLeader(b.order, b.index, stepId, m);
  }

  /** A candidate that is not approved is reported, and under its step there is no other report. */
  lemma {:induction false} ReportedNotices(cs: seq<Candidate>, n: Notice)
    requires Sorted(cs).Some?
    ensures n in Sorted(cs).value.1 <==> exists i :: 0 <= i < |cs| && !Approved(cs[i]) && NoticeOf(cs[i]) == n
  {
    hide Approved, ItemOf, ItemGuard, NoticeGuard, NoticeOf;
    if cs != [] {
      var front := cs[..|cs| - 1];
      ReportedNotices(front, n);
      assert cs == front + [cs[|cs| - 1]];
      if i :| 0 <= i < |front| && !Approved(front[i]) && NoticeOf(front[i]) == n {
        assert cs[i] == front[i];
      }
    }
  }

  /** Candidates of the same steps that report one step differently have different notices. */
  lemma DifferentReportsShow(cs: seq<Candidate>, es: seq<Candidate>, i: nat)
    requires Sorted(cs).Some? && Sorted(es).Some? && i < |cs| && |cs| == |es|
    requires forall j :: 0 <= j < |cs| ==> NoticeOf(cs[j]).stepId == NoticeOf(es[j]).stepId
    requires forall j :: 0 <= j < |cs| && j != i ==> NoticeOf(es[j]).stepId != NoticeOf(es[i]).stepId
    requires !Approved(cs[i]) && NoticeOf(cs[i]) != NoticeOf(es[i])
    ensures Sorted(cs).value.1 != Sorted(es).value.1
  {
    hide Sorted, NoticeOf, Approved;
    ReportedNotices(cs, NoticeOf(cs[i]));
    ReportedNotices(es, NoticeOf(cs[i]));
  }

  lemma FallbackJudged(d: Desk, outputs: map<string, Value>, step: Step, k: Slip)
    requires FallsBackOn(d, outputs, step) && k in d.index && Latest(d.order, d.index, step.id) == Some(d.index[k])
    ensures var signature := SignatureFor(d.q, step, StepInput(step, d.q.inputs, outputs).value);
      NoticeOf(Judge(d, outputs, step)) == NoticeFor(d, step, signature, k) && !Approved(Judge(d, outputs, step))
  {
    hide StepInput, SignatureFor, FoundCandidate, Latest, Crosses, Approves, VerdictsFor, Approved, OutputSignature;
    ApprovedExactly(d, outputs, step);
    CrossesIsKeyed(d, step, SignatureFor(d.q, step, StepInput(step, d.q.inputs, outputs).value));
  }

  lemma CrossesIsKeyed(d: Desk, step: Step, signature: Signature)
    ensures Crosses(d, step, signature) ==> (step.id, signature) in d.index
  {
  }

  lemma SwappedOutcome(a: Desk, b: Desk, i: nat, k: Slip, m: Slip)
    requires Replaced(a, b) && Whole(a) && WellFormed(a) && i < |a.q.steps|
    requires FallsBackOn(a, Sweep(a, i).outputs, a.q.steps[i])
    requires k in a.index && m in a.index && m in b.index
    requires Latest(a.order, a.index, a.q.steps[i].id) == Some(a.index[k])
    requires Latest(b.order, b.index, a.q.steps[i].id) == Some(b.index[m])
    requires var step := a.q.steps[i];
      var signature := SignatureFor(a.q, step, StepInput(step, a.q.inputs, Sweep(a, i).outputs).value);
      NoticeFor(a, step, signature, k) != NoticeFor(a, step, signature, m)
    ensures Evaluated(a).Some? && Evaluated(b).Some?
    ensures Evaluated(a).value.context.blocked != Evaluated(b).value.context.blocked
  {
    hide Replaced, Whole, WellFormed, Evaluated, Latest, Sorted, Judge, StepInput, SignatureFor, NoticeFor, NoticeOf;
    hide Sweep, Approved, Shaped;
    var step, outputs := a.q.steps[i], Sweep(a, i).outputs;
    SameDesk(a, b);
    WellFormedIsSequenced(a);
    BothFinish(a, b);
    SweptAlike(a, b, i);
    CandidateAt(a, i);
    CandidateAt(b, i);
    FallbackJudged(a, outputs, step, k);
    FallbackJudged(b, outputs, step, m);
    SlipNotice(a, b, step, SignatureFor(a.q, step, StepInput(step, a.q.inputs, outputs).value), m);
    NoticesNameSteps(a);
    NoticesNameSteps(b);
    DifferentReportsShow(SweepAll(a).candidates, SweepAll(b).candidates, i);
  }

  lemma NoticesNameSteps(d: Desk)
    requires Sequenced(d.q.steps)
    ensures |SweepAll(d).candidates| == |d.q.steps|
    ensures forall j :: 0 <= j < |d.q.steps| ==> NoticeOf(SweepAll(d).candidates[j]).stepId == d.q.steps[j].id
  {
    hide Judge, Approves;
    SweepKeepsShape(d, |d.q.steps|);
  }

  lemma SomeDiffer(d: Desk, step: Step, signature: Signature) returns (j: Slip, m: Slip)
    requires !LeadersAgree(d, step, signature)
    ensures Leader(d.index, step.id, j) && Leader(d.index, step.id, m)
    ensures j in d.index && m in d.index && j.0 == step.id && m.0 == step.id
    ensures NoticeFor(d, step, signature, j) != NoticeFor(d, step, signature, m)
  {
    hide NoticeFor;
    j, m :| Leader(d.index, step.id, j) && Leader(d.index, step.id, m)
      && NoticeFor(d, step, signature, j) != NoticeFor(d, step, signature, m);
  }

  /** Leaders that disagree can be made to show: some replacement of rejected outputs changes the notices. */
  lemma DisagreementShows(a: Desk, i: nat) returns (b: Desk)
    requires Whole(a) && WellFormed(a) && i < |a.q.steps| && !Agreeing(a, Sweep(a, i).outputs, a.q.steps[i])
    ensures Replaced(a, b) && !SameNotices(a, b)
  {
    hide Replaced, Whole, WellFormed, Evaluated, Latest, Judge, StepInput, SignatureFor, NoticeFor, Promoted, Leader;
    hide Leads, Sweep;
    WellFormedIsSequenced(a);
    var step, outputs := a.q.steps[i], Sweep(a, i).outputs;
    var signature := SignatureFor(a.q, step, StepInput(step, a.q.inputs, outputs).value);
    var j, m := SomeDiffer(a, step, signature);
    var k := LatestLeads(a.order, a.index, step.id, j);
    if NoticeFor(a, step, signature, k) == NoticeFor(a, step, signature, m) {
      m := j;
    }
    var high, low := SomeOutputIsLarger(a.order);
    b := Promoted(a, step.id, m, high, low);
    PromotedIsReplaced(a, i, m, high, low);
    PromotedLeads(a, step.id, m, high, low);
    SwappedOutcome(a, b, i, k, m);
  }

  /** Replacing the outputs of rejected records never changes the notices exactly when, at every step that falls back
      to its latest record, all records sharing the greatest completion time are reported alike. */
  lemma NoticesIgnoreOutputsExactly(a: Desk)
    requires Whole(a) && WellFormed(a)
    ensures (forall b :: Replaced(a, b) ==> SameNotices(a, b)) <==> AllAgree(a)
  {
    hide Replaced, Whole, WellFormed, SameNotices, Agreeing;
    if AllAgree(a) {
      forall b | Replaced(a, b) ensures SameNotices(a, b) {
        AgreementHidesOutputs(a, b);
      }
    } else {
      var i :| 0 <= i < |a.q.steps| && !Agreeing(a, Sweep(a, i).outputs, a.q.steps[i]);
      var b := DisagreementShows(a, i);
    }
  }

  // ----- no ties --------------------------------------------------------------------------

  /** No two results of one step were completed at the same time. */
  ghost predicate NoTies(index: Index) {
    forall j, k :: j in index && k in index && j.0 == k.0 && j != k ==> index[j].completedAt != index[k].completedAt
  }

  /** In particular the notices are the same when no two results of one step tie on completion time. */
  lemma RejectedOutputsDoNotChangeNotices(a: Desk, b: Desk)
    requires Replaced(a, b) && Whole(a) && WellFormed(a) && NoTies(a.index)
    ensures Evaluated(a).Some? && Evaluated(b).Some?
    ensures Evaluated(a).value.context.blocked == Evaluated(b).value.context.blocked
  {
    hide Evaluated, Replaced, Whole, WellFormed, NoticeFor, StepInput, SignatureFor, Sweep;
    AgreementHidesOutputs(a, b);
  }

  // ----- ties -----------------------------------------------------------------------------

  const TIED := Scope("tenant", "project")

  const LONE := Step("s", "new", [], None, None, true, None)

  function TiedRecord(implementationId: string, name: string): WorkResult {
    WorkResult(TIED, "w", "s", implementationId, Signature("other", name), OutputSignature(Null), Null,
      0, None, None, None, None)
  }

  /** One step, and two records of it completed at the same time for other inputs, one of them by another
      implementation. */
  function TiedDesk(order: DigestOrder): Desk {
    Desk(Query(TIED, Workflow("w", "1", map[], [LONE]), [LONE], map[], 0), Principal("agent", "session", "provider"),
      map[], map[("s", Signature("other", "a")) := TiedRecord("new", "a"),
        ("s", Signature("other", "b")) := TiedRecord("old", "b")], {}, order)
  }

  /** How a fallback record without provenance is reported. */
  lemma FallbackNotice(d: Desk, step: Step, signature: Signature, r: WorkResult)
    requires r.scope == d.q.scope && r.workflowId == d.q.w.id && r.stepId == step.id && r.provenance.None?
    ensures NoticeOf(FoundCandidate(d, step, signature, r, false)) == Notice(step.id, Rerun, "RERUN_" +
      if r.implementationId != step.implementationId then "IMPLEMENTATION_MISMATCH" else "INPUT_SIGNATURE_MISMATCH")
  {
    hide TrustOf, AuthorizationOf;
  }

  lemma TiedLeadersDisagree(order: DigestOrder, signature: Signature)
    ensures !LeadersAgree(TiedDesk(order), LONE, signature)
  {
    hide OutputSignature, FoundCandidate, NoticeOf, TotalOrder;
    var d, j, k := TiedDesk(order), ("s", Signature("other", "a")), ("s", Signature("other", "b"));
    FallbackNotice(d, LONE, signature, d.index[j]);
    FallbackNotice(d, LONE, signature, d.index[k]);
    assert |"RERUN_IMPLEMENTATION_MISMATCH"| != |"RERUN_INPUT_SIGNATURE_MISMATCH"|;
    assert Leader(d.index, "s", j) && Leader(d.index, "s", k);
    assert NoticeFor(d, LONE, signature, j) != NoticeFor(d, LONE, signature, k);
  }

  lemma TiedIsWellFormed(order: DigestOrder)
    ensures WellFormed(TiedDesk(order)) && Whole(TiedDesk(order)) && !NoTies(TiedDesk(order).index)
  {
    hide OutputSignature, TotalOrder;
    var index, j, k := TiedDesk(order).index, ("s", Signature("other", "a")), ("s", Signature("other", "b"));
    assert j in index && k in index && j != k && index[j].completedAt == index[k].completedAt;
  }

  lemma TiedFallsBack(order: DigestOrder)
    ensures FallsBackOn(TiedDesk(order), map[], LONE)
  {
    hide OutputSignature, TotalOrder, SignatureFor, InputSignature;
    var d := TiedDesk(order);
    assert StepInput(LONE, map[], map[]) == Some(Object(map[]));
    SignaturePrefix(d.q, LONE, Object(map[]));
  }

  lemma SignaturePrefix(q: Query, step: Step, input: Value)
    ensures SignatureFor(q, step, input).prefix == "input"
  {
  }

  /** Such disagreement is possible, whatever the order of digests: of two results completed at the same time, the
      output of a rejected one decides which is reported, and with which reason. */
  lemma TiedOutputsChangeNotices(order: DigestOrder) returns (b: Desk)
    ensures var a := TiedDesk(order);
      && Replaced(a, b) && Whole(a) && WellFormed(a) && !NoTies(a.index)
      && Evaluated(a).Some? && Evaluated(b).Some?
      && Evaluated(a).value.context.blocked != Evaluated(b).value.context.blocked
  {
    hide Evaluated, TiedDesk, Replaced, Whole, WellFormed, NoTies, LeadersAgree, FallsBackOn;
    var a := TiedDesk(order);
    TiedIsWellFormed(order);
    TiedFallsBack(order);
    TiedSteps(order);
    TiedLeadersDisagree(order, SignatureFor(a.q, LONE, StepInput(LONE, a.q.inputs, map[]).value));
    b := DisagreementShows(a, 0);
    BothFinish(a, b);
  }

  lemma TiedSteps(order: DigestOrder)
    ensures TiedDesk(order).q.steps == [LONE] && Sweep(TiedDesk(order), 0).outputs == map[]
    ensures StepInput(LONE, TiedDesk(order).q.inputs, map[]).Some?
  {
  }
}
