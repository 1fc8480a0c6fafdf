/** Several projects share one client: whatever stores of other scopes do, a store reads what it would read had they
    done nothing. */
module Isolation {
  import opened Options
  import opened Json
  import opened JsonText
  import opened Types
  import opened HandoffTypes
  import opened Core
  import opened Store

  // ----- keys -----------------------------------------------------------------------------

  function TextParts(parts: map<string, string>): map<string, Value> {
    map name | name in parts :: Text(parts[name])
  }

  /** The text that `_key` digests. */
  function KeyText(kind: string, scope: Scope, parts: map<string, string>): string {
    Print(Object(map[
      "kind" := Text(kind),
      "scope" := Object(map["tenant_id" := Text(scope.tenant), "project_id" := Text(scope.project)]),
      "parts" := Object(TextParts(parts))]))
  }

  /** A key names one kind, one scope and one set of parts: no two projects share a key. */
  lemma KeysIdentify(kind1: string, scope1: Scope, parts1: map<string, string>, kind2: string, scope2: Scope,
    parts2: map<string, string>)
    requires KeyText(kind1, scope1, parts1) == KeyText(kind2, scope2, parts2)
    ensures kind1 == kind2 && scope1 == scope2 && parts1 == parts2
  {
    hide Print;
    var s1 := map["tenant_id" := Text(scope1.tenant), "project_id" := Text(scope1.project)];
    var s2 := map["tenant_id" := Text(scope2.tenant), "project_id" := Text(scope2.project)];
    var m1 := map["kind" := Text(kind1), "scope" := Object(s1), "parts" := Object(TextParts(parts1))];
    var m2 := map["kind" := Text(kind2), "scope" := Object(s2), "parts" := Object(TextParts(parts2))];
    PrintInjective(Object(m1), Object(m2));
    assert m1["kind"] == m2["kind"] && m1["scope"] == m2["scope"] && m1["parts"] == m2["parts"];
    assert s1["tenant_id"] == s2["tenant_id"] && s1["project_id"] == s2["project_id"];
    TextPartsInjective(parts1, parts2);
  }

  lemma TextPartsInjective(a: map<string, string>, b: map<string, string>)
    requires TextParts(a) == TextParts(b)
    ensures a == b
  {
    assert a.Keys == TextParts(a).Keys == TextParts(b).Keys == b.Keys;
    forall name | name in a ensures a[name] == b[name] {
      assert TextParts(a)[name] == TextParts(b)[name];
    }
  }

  // ----- operations -----------------------------------------------------------------------

  datatype Op =
    | Save(record: Record)
    | SetActive(stepId: string, attemptId: Option<string>)
    | DeleteRecords(workflowIds: set<string>, stepIds: set<string>)
    | ResetActive(heads: seq<string>)

  /** One operation by the store of one scope. */
  datatype Call = Call(scope: Scope, op: Op)

  function Apply(c: Client, call: Call): Client
    requires call.op.Save? ==> !call.op.record.Damaged?
  {
    match call.op
    case Save(r) => if PayloadScope(r) == call.scope then Put(c, r) else c
    case SetActive(stepId, attemptId) => SetHead(c, call.scope, stepId, attemptId)
    case DeleteRecords(workflowIds, stepIds) => DeleteScope(c, call.scope, workflowIds, stepIds)
    case ResetActive(stepIds) => ResetHeads(c, call.scope, stepIds)
  }

  /** The records of the calls are what their constructors allow: a result's output matches its signature. */
  ghost predicate WellMade(calls: seq<Call>) {
    forall i :: 0 <= i < |calls| ==> WellMadeCall(calls[i])
  }

  ghost predicate WellMadeCall(call: Call) {
    call.op.Save? ==> !call.op.record.Damaged? && Fits(KeyOf(call.op.record), call.op.record)
  }

  ghost function Replay(c: Client, calls: seq<Call>): Client
    requires WellMade(calls)
  {
    if calls == [] then c else
    assert WellMadeCall(calls[|calls| - 1]);
    Apply(Replay(c, calls[..|calls| - 1]), calls[|calls| - 1])
  }

  /** The calls of the store of this scope. */
  function Own(calls: seq<Call>, scope: Scope): seq<Call> {
    if calls == [] then [] else
    var before, call := Own(calls[..|calls| - 1], scope), calls[|calls| - 1];
    if call.scope == scope then before + [call] else before
  }

  // ----- what a scope sees ----------------------------------------------------------------

  function KeyScope(k: Key): Scope {
    k.scope
  }

  /** The same records under the scope's keys, the same heads under its slots. */
  ghost predicate SameView(a: Client, b: Client, scope: Scope) {
    && (forall k: Key :: KeyScope(k) == scope ==>
        (k in a.entities <==> k in b.entities) && (k in a.entities ==> a.entities[k] == b.entities[k]))
    && (forall stepId :: Head(a, scope, stepId) == Head(b, scope, stepId))
  }

  lemma RecordsKeepTheirScope(k: Key, r: Record)
    requires Fits(k, r)
    ensures PayloadScope(r) == KeyScope(k)
  {
  }

  lemma ApplyKeepsConsistent(c: Client, call: Call)
    requires Consistent(c) && WellMadeCall(call)
    ensures Consistent(Apply(c, call))
  {
    hide Fits, Selected;
    match call.op
    case ResetActive(stepIds) => ResetKeepsEntities(c, call.scope, stepIds);
    case _ =>
  }

  lemma {:induction false} ResetKeepsEntities(c: Client, scope: Scope, stepIds: seq<string>)
    ensures ResetHeads(c, scope, stepIds).entities == c.entities
  {
    if stepIds != [] {
      ResetKeepsEntities(c, scope, stepIds[..|stepIds| - 1]);
    }
  }

  lemma {:induction false} ResetReads(c: Client, scope: Scope, stepIds: seq<string>, owner: Scope, stepId: string)
    ensures Head(ResetHeads(c, scope, stepIds), owner, stepId) ==
      if owner == scope && stepId in stepIds then None else Head(c, owner, stepId)
  {
    if stepIds != [] {
      ResetReads(c, scope, stepIds[..|stepIds| - 1], owner, stepId);
    }
  }

  /** An operation of another scope leaves the view as it is. */
  lemma ForeignCallsAreInvisible(c: Client, call: Call, scope: Scope)
    requires Consistent(c) && WellMadeCall(call) && call.scope != scope
    ensures SameView(Apply(c, call), c, scope)
  {
    match call.op
    case Save(r) =>
      if PayloadScope(r) == call.scope { RecordsKeepTheirScope(KeyOf(r), r); }
    case SetActive(_, _) =>
    case DeleteRecords(workflowIds, stepIds) =>
      forall k: Key | k in c.entities && KeyScope(k) == scope
        ensures k !in Doomed(c, call.scope, workflowIds, stepIds)
      {
        RecordsKeepTheirScope(k, c.entities[k]);
      }
    case ResetActive(stepIds) =>
      ResetKeepsEntities(c, call.scope, stepIds);
      forall stepId ensures Head(Apply(c, call), scope, stepId) == Head(c, scope, stepId) {
        ResetReads(c, call.scope, stepIds, scope, stepId);
      }
  }

  /** The store's own operation does the same to both views. */
  lemma OwnCallsActAlike(a: Client, b: Client, call: Call)
    requires Consistent(a) && Consistent(b) && WellMadeCall(call) && SameView(a, b, call.scope)
    ensures SameView(Apply(a, call), Apply(b, call), call.scope)
  {
    hide Fits;
    match call.op
    case Save(r) => SavesActAlike(a, b, call.scope, r);
    case SetActive(stepId, attemptId) => HeadsActAlike(a, b, call.scope, stepId, attemptId);
    case DeleteRecords(workflowIds, stepIds) =>
      SameDoomed(a, b, call.scope, workflowIds, stepIds);
      DeletionActsAlike(a, b, call.scope, workflowIds, stepIds);
    case ResetActive(stepIds) =>
      ResetKeepsEntities(a, call.scope, stepIds);
      ResetKeepsEntities(b, call.scope, stepIds);
      forall stepId ensures Head(Apply(a, call), call.scope, stepId) == Head(Apply(b, call), call.scope, stepId) {
        ResetReads(a, call.scope, stepIds, call.scope, stepId);
        ResetReads(b, call.scope, stepIds, call.scope, stepId);
      }
  }

  lemma SavesActAlike(a: Client, b: Client, scope: Scope, r: Record)
    requires SameView(a, b, scope) && !r.Damaged?
    ensures SameView(Put(a, r), Put(b, r), scope)
  {
    forall stepId ensures Head(Put(a, r), scope, stepId) == Head(Put(b, r), scope, stepId) {
      assert Head(a, scope, stepId) == Head(b, scope, stepId);
    }
  }

  lemma HeadsActAlike(a: Client, b: Client, scope: Scope, stepId: string, attemptId: Option<string>)
    requires SameView(a, b, scope)
    ensures SameView(SetHead(a, scope, stepId, attemptId), SetHead(b, scope, stepId, attemptId), scope)
  {
    var x, y := SetHead(a, scope, stepId, attemptId), SetHead(b, scope, stepId, attemptId);
    forall other ensures Head(x, scope, other) == Head(y, scope, other) {
      assert Head(a, scope, other) == Head(b, scope, other);
    }
  }

  lemma DeletionActsAlike(a: Client, b: Client, scope: Scope, workflowIds: set<string>, stepIds: set<string>)
    requires SameView(a, b, scope)
    requires Doomed(a, scope, workflowIds, stepIds) == Doomed(b, scope, workflowIds, stepIds)
    ensures SameView(DeleteScope(a, scope, workflowIds, stepIds), DeleteScope(b, scope, workflowIds, stepIds), scope)
  {
    hide Doomed;
    var x, y := DeleteScope(a, scope, workflowIds, stepIds), DeleteScope(b, scope, workflowIds, stepIds);
    forall stepId ensures Head(x, scope, stepId) == Head(y, scope, stepId) {
      assert Head(a, scope, stepId) == Head(b, scope, stepId);
    }
  }

  /** A scoped deletion picks the same records, so it also reports the same count. */
  lemma SameDoomed(a: Client, b: Client, scope: Scope, workflowIds: set<string>, stepIds: set<string>)
    requires Consistent(a) && Consistent(b) && SameView(a, b, scope)
    ensures Doomed(a, scope, workflowIds, stepIds) == Doomed(b, scope, workflowIds, stepIds)
  {
    hide Fits;
    forall k: Key ensures k in Doomed(a, scope, workflowIds, stepIds) <==> k in Doomed(b, scope, workflowIds, stepIds) {
      if k in a.entities { RecordsKeepTheirScope(k, a.entities[k]); }
      if k in b.entities { RecordsKeepTheirScope(k, b.entities[k]); }
    }
  }

  // ----- a read returns the last write ----------------------------------------------------

  /** Every keyed read of the scope: results, attempts, plans, handoff records, receipts, sessions and runs. */
  function Read(c: Client, k: Key): Option<Record> {
    if k in c.entities then Some(c.entities[k]) else None
  }

  /** The call saves this record under this key. */
  predicate SavesUnder(call: Call, k: Key, r: Record) {
    && call.op.Save? && call.op.record == r && !r.Damaged?
    && PayloadScope(r) == call.scope && KeyOf(r) == k
  }

  /** The call removes or replaces this record under this key. */
  predicate Disturbs(call: Call, k: Key, r: Record) {
    match call.op
    case Save(other) => !other.Damaged? && PayloadScope(other) == call.scope && KeyOf(other) == k
    case DeleteRecords(workflowIds, stepIds) => Selected(r, call.scope, workflowIds, stepIds)
    case _ => false
  }

  ghost predicate KeptFrom(calls: seq<Call>, first: nat, k: Key, r: Record) {
    forall q :: first <= q < |calls| ==> !Disturbs(calls[q], k, r)
  }

  /** Written at `p`, or there from the start, and kept ever since. */
  ghost predicate LastSaved(c: Client, calls: seq<Call>, k: Key, r: Record) {
    || (Read(c, k) == Some(r) && KeptFrom(calls, 0, k, r))
    || exists p: nat :: SavedAt(calls, p, k, r)
  }

  ghost predicate SavedAt(calls: seq<Call>, p: nat, k: Key, r: Record) {
    p < |calls| && SavesUnder(calls[p], k, r) && KeptFrom(calls, p + 1, k, r)
  }

  lemma OneMoreCall(c: Client, call: Call, k: Key, r: Record)
    requires WellMadeCall(call)
    ensures Read(Apply(c, call), k) == Some(r) <==>
      SavesUnder(call, k, r) || (Read(c, k) == Some(r) && !Disturbs(call, k, r))
  {
    hide Fits, PayloadScope, Selected;
    match call.op
    case ResetActive(heads) => ResetKeepsEntities(c, call.scope, heads);
    case _ =>
  }

  lemma KeptGrows(calls: seq<Call>, call: Call, first: nat, k: Key, r: Record)
    requires first <= |calls|
    ensures KeptFrom(calls + [call], first, k, r) <==> KeptFrom(calls, first, k, r) && !Disturbs(call, k, r)
  {
    hide Disturbs;
    var all := calls + [call];
    assert all[|calls|] == call && forall q :: 0 <= q < |calls| ==> all[q] == calls[q];
  }

  lemma SavedGrows(calls: seq<Call>, call: Call, p: nat, k: Key, r: Record)
    ensures SavedAt(calls + [call], p, k, r) <==>
      if p == |calls| then SavesUnder(call, k, r) else SavedAt(calls, p, k, r) && !Disturbs(call, k, r)
  {
    hide Disturbs, SavesUnder;
    if p < |calls| { KeptGrows(calls, call, p + 1, k, r); }
  }

  lemma LastSavedGrows(c: Client, calls: seq<Call>, call: Call, k: Key, r: Record)
    ensures LastSaved(c, calls + [call], k, r) <==>
      SavesUnder(call, k, r) || (LastSaved(c, calls, k, r) && !Disturbs(call, k, r))
  {
    hide SavesUnder, Disturbs, Read, SavedAt, KeptFrom;
    KeptGrows(calls, call, 0, k, r);
    forall p: nat
      ensures SavedAt(calls + [call], p, k, r) <==>
        if p == |calls| then SavesUnder(call, k, r) else SavedAt(calls, p, k, r) && !Disturbs(call, k, r)
    {
      SavedGrows(calls, call, p, k, r);
    }
    NotYetSaved(calls, k, r);
    if SavesUnder(call, k, r) {
      assert SavedAt(calls + [call], |calls|, k, r);
    }
    if p: nat :| SavedAt(calls, p, k, r) {
      assert SavedAt(calls + [call], p, k, r) <==> !Disturbs(call, k, r);
    }
  }

  lemma NotYetSaved(calls: seq<Call>, k: Key, r: Record)
    ensures !SavedAt(calls, |calls|, k, r)
  {
  }

  /** Reading a key gives a record exactly when it was saved under that key by a store of its own scope, or was there
      from the start, and no later call replaced or deleted it. */
  lemma {:induction false} ReadsReturnTheLastSave(c: Client, calls: seq<Call>, k: Key, r: Record)
    requires WellMade(calls)
    ensures Read(Replay(c, calls), k) == Some(r) <==> LastSaved(c, calls, k, r)
  {
    hide Apply, Read, Disturbs, SavesUnder, WellMadeCall;
    if calls != [] {
      var before, call := calls[..|calls| - 1], calls[|calls| - 1];
      ReadsReturnTheLastSave(c, before, k, r);
      OneMoreCall(Replay(c, before), call, k, r);
      LastSavedGrows(c, before, call, k, r);
      assert before + [call] == calls;
    }
  }

  /** What the call writes to the head of this step, if it does. */
  function HeadWrite(call: Call, scope: Scope, stepId: string): Option<Option<string>> {
    if call.scope != scope then None else
    match call.op
    case SetActive(step, attemptId) => if step == stepId then Some(attemptId) else None
    case ResetActive(heads) => if stepId in heads then Some(None) else None
    case _ => None
  }

  /** The last head write decides. */
  ghost predicate LastHead(c: Client, calls: seq<Call>, scope: Scope, stepId: string, head: Option<string>) {
    || (Head(c, scope, stepId) == head && forall q :: 0 <= q < |calls| ==> HeadWrite(calls[q], scope, stepId) == None)
    || exists p: nat :: WrittenAt(calls, p, scope, stepId, head)
  }

  ghost predicate WrittenAt(calls: seq<Call>, p: nat, scope: Scope, stepId: string, head: Option<string>) {
    && p < |calls| && HeadWrite(calls[p], scope, stepId) == Some(head)
    && forall q :: p < q < |calls| ==> HeadWrite(calls[q], scope, stepId) == None
  }

  lemma OneMoreHead(c: Client, call: Call, scope: Scope, stepId: string)
    requires WellMadeCall(call)
    ensures Head(Apply(c, call), scope, stepId) ==
      match HeadWrite(call, scope, stepId)
      case Some(head) => head
      case None => Head(c, scope, stepId)
  {
    hide Fits, Doomed;
    match call.op
    case ResetActive(heads) => ResetReads(c, call.scope, heads, scope, stepId);
    case _ =>
  }

  /** Reading a head gives what the last call that set or reset it wrote, or the head of the start. */
  lemma {:induction false} HeadsReturnTheLastWrite(c: Client, calls: seq<Call>, scope: Scope, stepId: string)
    requires WellMade(calls)
    ensures LastHead(c, calls, scope, stepId, Head(Replay(c, calls), scope, stepId))
  {
    hide Apply, WellMadeCall, HeadWrite, Head;
    if calls != [] {
      var before, call := calls[..|calls| - 1], calls[|calls| - 1];
      var head := Head(Replay(c, before), scope, stepId);
      HeadsReturnTheLastWrite(c, before, scope, stepId);
      OneMoreHead(Replay(c, before), call, scope, stepId);
      assert forall q :: 0 <= q < |before| ==> before[q] == calls[q];
      if HeadWrite(call, scope, stepId) == None {
        if p: nat :| WrittenAt(before, p, scope, stepId, head) {
          assert WrittenAt(calls, p, scope, stepId, head);
        }
      } else {
        assert WrittenAt(calls, |before|, scope, stepId, HeadWrite(call, scope, stepId).value);
      }
    }
  }

  // ----- isolation ------------------------------------------------------------------------

  lemma {:induction false} OwnIsWellMade(calls: seq<Call>, scope: Scope)
    requires WellMade(calls)
    ensures WellMade(Own(calls, scope))
  {
    hide WellMadeCall;
    if calls != [] {
      OwnIsWellMade(calls[..|calls| - 1], scope);
    }
  }

  lemma {:induction false} ReplayKeepsConsistent(c: Client, calls: seq<Call>)
    requires Consistent(c) && WellMade(calls)
    ensures Consistent(Replay(c, calls))
  {
    hide Consistent, WellMadeCall, Apply;
    if calls != [] {
      ReplayKeepsConsistent(c, calls[..|calls| - 1]);
      ApplyKeepsConsistent(Replay(c, calls[..|calls| - 1]), calls[|calls| - 1]);
    }
  }

  lemma SameViewChains(a: Client, b: Client, c: Client, scope: Scope)
    requires SameView(a, b, scope) && SameView(b, c, scope)
    ensures SameView(a, c, scope)
  {
  }

  lemma SameViewOfItself(c: Client, scope: Scope)
    ensures SameView(c, c, scope)
  {
  }

  /** After any interleaving of operations by stores of different scopes, a scope's view is that of the run with
      the other stores' operations removed. */
  lemma {:induction false} ViewsAreIsolated(c: Client, calls: seq<Call>, scope: Scope)
    requires Consistent(c) && WellMade(calls)
    ensures WellMade(Own(calls, scope))
    ensures SameView(Replay(c, calls), Replay(c, Own(calls, scope)), scope)
  {
    hide Consistent, WellMadeCall, Apply, SameView;
    OwnIsWellMade(calls, scope);
    if calls == [] {
      SameViewOfItself(c, scope);
    } else {
      var before, call := calls[..|calls| - 1], calls[|calls| - 1];
      ViewsAreIsolated(c, before, scope);
      ReplayKeepsConsistent(c, before);
      ReplayKeepsConsistent(c, Own(before, scope));
      if call.scope == scope {
        var own := Own(calls, scope);
        assert own[..|own| - 1] == Own(before, scope);
        OwnCallsActAlike(Replay(c, before), Replay(c, Own(before, scope)), call);
      } else {
        ForeignCallsAreInvisible(Replay(c, before), call, scope);
        SameViewChains(Replay(c, calls), Replay(c, before), Replay(c, Own(calls, scope)), scope);
      }
    }
  }

  /** Two clients that a store of this scope cannot tell apart by reading: keyed reads, heads, listings, reports of
      undecodable records. */
  ghost predicate SameReads(a: Client, b: Client, scope: Scope) {
    && (forall k: Key :: KeyScope(k) == scope ==> Read(a, k) == Read(b, k))
    && (forall workflowId, stepId, signature ::
        GetWork(a, scope, workflowId, stepId, signature) == GetWork(b, scope, workflowId, stepId, signature))
    && (forall attemptId :: GetAttempt(a, scope, attemptId) == GetAttempt(b, scope, attemptId))
    && (forall stepId :: Head(a, scope, stepId) == Head(b, scope, stepId))
    && (forall workflowId, results :: Lists(a, scope, workflowId, results) <==> Lists(b, scope, workflowId, results))
    && (forall workflowId :: DamagedSteps(a, scope, workflowId) == DamagedSteps(b, scope, workflowId))
  }

  lemma SameDamage(a: Client, b: Client, scope: Scope, workflowId: string)
    requires Consistent(a) && Consistent(b) && SameView(a, b, scope)
    ensures DamagedSteps(a, scope, workflowId) == DamagedSteps(b, scope, workflowId)
  {
    DamageIsSeen(a, b, scope, workflowId);
    DamageIsSeen(b, a, scope, workflowId);
  }

  lemma DamageIsSeen(a: Client, b: Client, scope: Scope, workflowId: string)
    requires Consistent(a) && SameView(a, b, scope)
    ensures DamagedSteps(a, scope, workflowId) <= DamagedSteps(b, scope, workflowId)
  {
    hide Fits;
    forall stepId | stepId in DamagedSteps(a, scope, workflowId) ensures stepId in DamagedSteps(b, scope, workflowId) {
      var k :| k in a.entities && a.entities[k].Damaged? && a.entities[k].scope == scope
        && a.entities[k].workflow == Some(workflowId) && a.entities[k].step.Some? && a.entities[k].step.value != ""
        && a.entities[k].step.value == stepId;
      RecordsKeepTheirScope(k, a.entities[k]);
      assert k in b.entities && b.entities[k] == a.entities[k];
    }
  }

  lemma SameWork(a: Client, b: Client, scope: Scope, workflowId: string, stepId: string, signature: Signature)
    requires SameView(a, b, scope)
    ensures GetWork(a, scope, workflowId, stepId, signature) == GetWork(b, scope, workflowId, stepId, signature)
  {
    assert KeyScope(WorkKey(scope, workflowId, stepId, signature)) == scope;
  }

  lemma SameAttempt(a: Client, b: Client, scope: Scope, attemptId: string)
    requires SameView(a, b, scope)
    ensures GetAttempt(a, scope, attemptId) == GetAttempt(b, scope, attemptId)
  {
    assert KeyScope(AttemptKey(scope, attemptId)) == scope;
  }

  lemma SameViewReadsAlike(a: Client, b: Client, scope: Scope)
    requires Consistent(a) && Consistent(b) && SameView(a, b, scope)
    ensures SameReads(a, b, scope)
  {
    hide Consistent, GetWork, GetAttempt, DamagedSteps;
    forall workflowId, stepId, signature
      ensures GetWork(a, scope, workflowId, stepId, signature) == GetWork(b, scope, workflowId, stepId, signature)
    {
      SameWork(a, b, scope, workflowId, stepId, signature);
    }
    forall attemptId ensures GetAttempt(a, scope, attemptId) == GetAttempt(b, scope, attemptId) {
      SameAttempt(a, b, scope, attemptId);
    }
    forall workflowId ensures DamagedSteps(a, scope, workflowId) == DamagedSteps(b, scope, workflowId) {
      SameDamage(a, b, scope, workflowId);
    }
  }

  /** Project isolation: every read of a store equals the read in the run with the other stores' operations removed,
      scoped deletions and head resets included, over any starting client. */
  lemma ProjectsAreIsolated(c: Client, calls: seq<Call>, scope: Scope)
    requires Consistent(c) && WellMade(calls)
    ensures WellMade(Own(calls, scope))
    ensures SameReads(Replay(c, calls), Replay(c, Own(calls, scope)), scope)
  {
    hide Consistent, SameView, SameReads, WellMadeCall, Replay;
    ViewsAreIsolated(c, calls, scope);
    ReplayKeepsConsistent(c, calls);
    ReplayKeepsConsistent(c, Own(calls, scope));
    SameViewReadsAlike(Replay(c, calls), Replay(c, Own(calls, scope)), scope);
  }
}
