/** `validate_spend_approval` and `ACPSpendLedger`: every paid command reserves its amount first, and the ledger of a
    plan never commits more than the approved cap.  Money is an integer number of the smallest unit; an amount that is
    not a finite non-negative decimal is `None`. */
module Spend {
  import opened Options
  import opened Types

  import Planning

  datatype Approval = Approval(
    planId: Signature,
    scope: Scope,
    allowedSteps: set<string>,
    providerId: string,
    offeringId: string,
    chainId: int,
    actions: set<string>,
    currency: string,
    maxTotal: nat,
    maxPerJob: Option<nat>,
    expiresAt: int)

  /** One call of `reserve`. */
  datatype Spending = Spending(
    approval: Approval,
    scope: Scope,
    planId: Signature,
    stepId: string,
    providerId: string,
    offeringId: string,
    chainId: int,
    action: string,
    amount: Option<nat>,
    currency: string,
    reservationId: string,
    now: int)

  /** `validate_spend_approval` accepts. */
  predicate Permitted(s: Spending) {
    && s.approval.planId == s.planId
    && s.approval.scope == s.scope
    && s.stepId in s.approval.allowedSteps
    && s.approval.providerId == s.providerId
    && s.approval.offeringId == s.offeringId
    && s.approval.chainId == s.chainId
    && s.action in s.approval.actions
    && s.now < s.approval.expiresAt
    && s.approval.currency == s.currency
    && s.amount.Some?
    && s.amount.value <= s.approval.maxTotal
    && (s.approval.maxPerJob.Some? ==> s.amount.value <= s.approval.maxPerJob.value)
  }

  // ----- the ledger -----------------------------------------------------------------------

  datatype Reservation = Reservation(id: string, amount: nat, currency: string)

  datatype Ledger = Ledger(scope: Scope, planId: Signature, currency: string, committed: nat, entries: seq<Reservation>)

  /** Ledgers by the text that `_spend_key` digests. */
  type Ledgers = map<string, Ledger>

  function SpendKey(scope: Scope, planId: Signature): string {
    scope.tenant + ":" + scope.project + ":" + planId.prefix + ":" + planId.text
  }

  predicate Owns(l: Ledger, scope: Scope, planId: Signature) {
    l.scope == scope && l.planId == planId
  }

  function Blank(s: Spending): Ledger {
    Ledger(s.scope, s.planId, s.currency, 0, [])
  }

  function Body(ls: Ledgers, s: Spending): Ledger {
    if SpendKey(s.scope, s.planId) in ls then ls[SpendKey(s.scope, s.planId)] else Blank(s)
  }

  predicate Reserved(entries: seq<Reservation>, id: string) {
    exists i :: 0 <= i < |entries| && entries[i].id == id
  }

  /** `None` is the exception; the ledgers then stay as they are. */
  function Reserve(ls: Ledgers, s: Spending): Option<Ledgers> {
    var body := Body(ls, s);
    if !Permitted(s) then None
    else if !Owns(body, s.scope, s.planId) || body.currency != s.currency then None
    else if Reserved(body.entries, s.reservationId) then Some(ls)
    else if body.committed + s.amount.value > s.approval.maxTotal then None
    else Some(ls[SpendKey(s.scope, s.planId) := body.(
      committed := body.committed + s.amount.value,
      entries := body.entries + [Reservation(s.reservationId, s.amount.value, s.currency)])])
  }

  /** The approval is for this plan of this project and names the step, the provider, the offering, the chain and the
      action; it has not expired; the amount is a proper one in its currency, within both of its limits. */
  predicate ApprovalAllows(s: Spending) {
    var a := s.approval;
    && (a.scope, a.planId) == (s.scope, s.planId)
    && s.stepId in a.allowedSteps && s.action in a.actions
    && (a.providerId, a.offeringId, a.chainId, a.currency) == (s.providerId, s.offeringId, s.chainId, s.currency)
    && s.now < a.expiresAt
    && match s.amount
       case None => false
       case Some(amount) => amount <= a.maxTotal && (a.maxPerJob.None? || amount <= a.maxPerJob.value)
  }

  /** The plan's ledger, if there is one, is this plan's and in this currency, and either holds the reservation already
      or stays under the approved total with the amount. */
  predicate HasRoom(ls: Ledgers, s: Spending)
    requires s.amount.Some?
  {
    SpendKey(s.scope, s.planId) in ls ==>
      var l := ls[SpendKey(s.scope, s.planId)];
      && (l.scope, l.planId, l.currency) == (s.scope, s.planId, s.currency)
      && ( || (exists i :: 0 <= i < |l.entries| && l.entries[i].id == s.reservationId)
           || l.committed + s.amount.value <= s.approval.maxTotal)
  }

  /** A reservation is accepted exactly when the approval allows it and the ledger has room. */
  lemma AcceptedExactly(ls: Ledgers, s: Spending)
    ensures Reserve(ls, s).Some? <==> ApprovalAllows(s) && HasRoom(ls, s)
  {
    hide SpendKey;
  }

  class ACPSpendLedger {
    var ledgers: Ledgers

    constructor ()
      ensures ledgers == map[]
    {
      ledgers := map[];
    }

    /** Of a balanced ledger, the sum of its entries. */
    method Committed(scope: Scope, planId: Signature) returns (committed: nat)
      ensures SpendKey(scope, planId) !in ledgers ==> committed == 0
      ensures SpendKey(scope, planId) in ledgers && AllBalanced(ledgers) ==>
        committed == Sum(ledgers[SpendKey(scope, planId)].entries)
    {
      committed := if SpendKey(scope, planId) in ledgers then ledgers[SpendKey(scope, planId)].committed else 0;
    }

    method FindReservation(entries: seq<Reservation>, id: string) returns (found: bool)
      ensures found == Reserved(entries, id)
    {
      for i := 0 to |entries|
        invariant !Reserved(entries[..i], id)
      {
        if entries[i].id == id {
          return true;
        }
        assert forall j :: 0 <= j < i ==> entries[..i][j] == entries[j];
      }
      assert entries[..|entries|] == entries;
      return false;
    }

    method ReserveSpend(s: Spending) returns (accepted: bool)
      modifies this
      ensures accepted == Reserve(old(ledgers), s).Some?
      ensures accepted <==> ApprovalAllows(s) && HasRoom(old(ledgers), s)
      ensures ledgers == if accepted then Reserve(old(ledgers), s).value else old(ledgers)
    {
      AcceptedExactly(ledgers, s);
      if !Permitted(s) {
        return false;
      }
      var key := SpendKey(s.scope, s.planId);
      var body := if key in ledgers then ledgers[key] else Blank(s);
      if !Owns(body, s.scope, s.planId) || body.currency != s.currency {
        return false;
      }
      var found := FindReservation(body.entries, s.reservationId);
      if found {
        return true;
      }
      var committed := body.committed + s.amount.value;
      if committed > s.approval.maxTotal {
        return false;
      }
      var entry := Reservation(s.reservationId, s.amount.value, s.currency);
      ledgers := ledgers[key := body.(committed := committed, entries := body.entries + [entry])];
      return true;
    }
  }

  // ----- conservation ---------------------------------------------------------------------

  function Sum(entries: seq<Reservation>): nat {
    if entries == [] then 0 else Sum(entries[..|entries| - 1]) + entries[|entries| - 1].amount
  }

  /** Committed is the sum of the entries, whose ids differ and whose currency is the ledger's; the ledger is kept
      under its own key. */
  ghost predicate Balanced(key: string, l: Ledger) {
    && l.committed == Sum(l.entries)
    && (forall i, j :: 0 <= i < j < |l.entries| ==> l.entries[i].id != l.entries[j].id)
    && (forall i :: 0 <= i < |l.entries| ==> l.entries[i].currency == l.currency)
    && key == SpendKey(l.scope, l.planId)
  }

  ghost predicate AllBalanced(ls: Ledgers) {
    forall key :: key in ls ==> Balanced(key, ls[key])
  }

  function Next(ls: Ledgers, s: Spending): Ledgers {
    match Reserve(ls, s)
    case Some(ls') => ls'
    case None => ls
  }

  function AfterAll(calls: seq<Spending>): Ledgers {
    if calls == [] then map[] else Next(AfterAll(calls[..|calls| - 1]), calls[|calls| - 1])
  }

  lemma EntryKeepsBalance(key: string, l: Ledger, r: Reservation)
    requires Balanced(key, l) && !Reserved(l.entries, r.id) && r.currency == l.currency
    ensures Balanced(key, l.(committed := l.committed + r.amount, entries := l.entries + [r]))
  {
    assert (l.entries + [r])[..|l.entries|] == l.entries;
  }

  lemma ReserveKeepsBalance(ls: Ledgers, s: Spending)
    requires AllBalanced(ls)
    ensures AllBalanced(Next(ls, s))
  {
    hide SpendKey;
    var body := Body(ls, s);
    if Reserve(ls, s).Some? && !Reserved(body.entries, s.reservationId) {
      EntryKeepsBalance(SpendKey(s.scope, s.planId), body, Reservation(s.reservationId, s.amount.value, s.currency));
    }
  }

  /** Over any sequence of calls every ledger stays balanced. */
  lemma {:induction false} LedgersStayBalanced(calls: seq<Spending>)
    ensures AllBalanced(AfterAll(calls))
  {
    hide Next, Balanced;
    if calls != [] {
      LedgersStayBalanced(calls[..|calls| - 1]);
      ReserveKeepsBalance(AfterAll(calls[..|calls| - 1]), calls[|calls| - 1]);
    }
  }

  /** Repeating a reservation changes nothing, whatever the amount of the repeated call. */
  lemma RepeatingAReservationIsANoOp(ls: Ledgers, s: Spending, again: Spending)
    requires Reserve(ls, s).Some?
    requires again.scope == s.scope && again.planId == s.planId && again.reservationId == s.reservationId
    requires again.currency == s.currency && Permitted(again)
    ensures Reserve(Next(ls, s), again) == Some(Next(ls, s))
  {
    var body := Body(Next(ls, s), again);
    if !Reserved(Body(ls, s).entries, s.reservationId) {
      assert body.entries[|body.entries| - 1].id == s.reservationId;
    }
  }

  /** Plans whose joined keys coincide never mix: a call for one leaves the ledger of the other as it is. */
  lemma CollidingPlansNeverMix(ls: Ledgers, s: Spending, key: string)
    requires key in ls && !Owns(ls[key], s.scope, s.planId)
    ensures key in Next(ls, s) && Next(ls, s)[key] == ls[key]
  {
  }

  // ----- keys -----------------------------------------------------------------------------

  /** What a scope contributes to a key, and the plan id. */
  function Front(scope: Scope): string {
    scope.tenant + ":" + scope.project + ":"
  }

  function IdText(planId: Signature): string {
    planId.prefix + ":" + planId.text
  }

  lemma KeyParts(scope: Scope, planId: Signature)
    ensures SpendKey(scope, planId) == Front(scope) + IdText(planId)
  {
    assert SpendKey(scope, planId) == Front(scope) + IdText(planId);
  }

  /** One key continues the scope of the other with the rest of its own scope. */
  predicate Continues(a: Scope, idA: Signature, b: Scope, idB: Signature) {
    Front(a) <= Front(b) && IdText(idA) == Front(b)[|Front(a)|..] + IdText(idB)
  }

  lemma OneWay(a: Scope, idA: Signature, b: Scope, idB: Signature)
    requires |Front(a)| <= |Front(b)|
    ensures SpendKey(a, idA) == SpendKey(b, idB) <==> Continues(a, idA, b, idB)
  {
    hide Front, IdText;
    KeyParts(a, idA);
    KeyParts(b, idB);
    var x, y, n := SpendKey(a, idA), SpendKey(b, idB), |Front(a)|;
    if x == y {
      assert x[..n] == Front(a) && y[..n] == Front(b)[..n];
      assert x[n..] == IdText(idA) && y[n..] == Front(b)[n..] + IdText(idB);
    }
    if Continues(a, idA, b, idB) {
      assert Front(a) + Front(b)[n..] == Front(b);
      assert x == Front(a) + (Front(b)[n..] + IdText(idB)) == (Front(a) + Front(b)[n..]) + IdText(idB);
    }
  }

  /** The joined keys of two arbitrary plans coincide exactly when one scope's front begins the other's and the plan
      id makes up the difference. */
  lemma KeysCoincideExactly(a: Scope, idA: Signature, b: Scope, idB: Signature)
    ensures SpendKey(a, idA) == SpendKey(b, idB) <==> Continues(a, idA, b, idB) || Continues(b, idB, a, idA)
  {
    hide SpendKey, IdText, Front;
    if |Front(a)| <= |Front(b)| { OneWay(a, idA, b, idB); }
    if |Front(b)| <= |Front(a)| { OneWay(b, idB, a, idA); }
  }

  /** So two scopes are safe from each other, whatever the plan ids, exactly when neither front begins the other. */
  lemma ScopesShareKeysExactly(a: Scope, b: Scope)
    ensures (exists idA, idB :: SpendKey(a, idA) == SpendKey(b, idB)) <==> Front(a) <= Front(b) || Front(b) <= Front(a)
  {
    hide SpendKey, Front;
    forall idA, idB ensures SpendKey(a, idA) == SpendKey(b, idB) ==> Front(a) <= Front(b) || Front(b) <= Front(a) {
      KeysCoincideExactly(a, idA, b, idB);
    }
    if Front(a) <= Front(b) { SharedKey(a, b); }
    if Front(b) <= Front(a) { SharedKey(b, a); }
  }

  lemma SharedKey(a: Scope, b: Scope)
    requires Front(a) <= Front(b)
    ensures exists idA, idB :: SpendKey(a, idA) == SpendKey(b, idB)
  {
    hide SpendKey, Front;
    var idB := Signature("plan", "");
    var rest := Front(b)[|Front(a)|..];
    var idA := Signature(rest + "plan", "");
    assert IdText(idA) == rest + IdText(idB);
    KeysCoincideExactly(a, idA, b, idB);
  }

  /** The plan id as the planner writes it: the digest in place of what it digests. */
  function Digested(digest: string -> string, planId: Signature): Signature {
    Signature(planId.prefix, digest(planId.text))
  }

  /** Plans made by the planner never share a ledger key across projects: with digests of one length that tell the two
      plans' texts apart, equal keys mean the same plan id, and that names its project. */
  lemma PlannedKeysIdentify(digest: string -> string, q1: Planning.Query, d1: seq<StepDecision>, q2: Planning.Query,
    d2: seq<StepDecision>)
    requires var p1, p2 := Planning.PlanOf(q1, d1).planId, Planning.PlanOf(q2, d2).planId;
      && |digest(p1.text)| == |digest(p2.text)| == 64
      && (digest(p1.text) == digest(p2.text) ==> p1.text == p2.text)
      && SpendKey(q1.scope, Digested(digest, p1)) == SpendKey(q2.scope, Digested(digest, p2))
    ensures q1.scope == q2.scope && Planning.PlanOf(q1, d1).planId == Planning.PlanOf(q2, d2).planId
  {
    hide Planning.PlanPayload;
    var p1, p2 := Planning.PlanOf(q1, d1).planId, Planning.PlanOf(q2, d2).planId;
    var x, y := SpendKey(q1.scope, Digested(digest, p1)), SpendKey(q2.scope, Digested(digest, p2));
    assert x[|x| - 64..] == digest(p1.text) && y[|y| - 64..] == digest(p2.text);
    Planning.PlanIdsIdentify(q1, d1, q2, d2);
  }

  // ----- the cap --------------------------------------------------------------------------

  /** Calls for this plan, all under approvals with this cap. */
  ghost predicate Capped(calls: seq<Spending>, scope: Scope, planId: Signature, cap: nat) {
    forall i :: 0 <= i < |calls| && calls[i].scope == scope && calls[i].planId == planId ==>
      calls[i].approval.maxTotal == cap
  }

  /** The plan's own ledger, if it has one. */
  function OwnLedger(ls: Ledgers, scope: Scope, planId: Signature): Option<Ledger> {
    var key := SpendKey(scope, planId);
    if key in ls && Owns(ls[key], scope, planId) then Some(ls[key]) else None
  }

  function Spent(ls: Ledgers, scope: Scope, planId: Signature): nat {
    match OwnLedger(ls, scope, planId)
    case Some(l) => l.committed
    case None => 0
  }

  /** A paid command is sent when its reservation is accepted; what all commands for a plan amount to. */
  function SentFor(calls: seq<Spending>, scope: Scope, planId: Signature): nat {
    if calls == [] then 0 else
    var before, s := calls[..|calls| - 1], calls[|calls| - 1];
    SentFor(before, scope, planId)
      + if s.scope == scope && s.planId == planId && Reserve(AfterAll(before), s).Some? then s.amount.value else 0
  }

  lemma {:induction false} CommittedStaysUnderTheCap(calls: seq<Spending>, scope: Scope, planId: Signature, cap: nat)
    requires Capped(calls, scope, planId, cap)
    ensures Spent(AfterAll(calls), scope, planId) <= cap
  {
    if calls != [] {
      CommittedStaysUnderTheCap(calls[..|calls| - 1], scope, planId, cap);
    }
  }

  /** No two calls for the plan share a reservation id. */
  ghost predicate DistinctReservations(calls: seq<Spending>, scope: Scope, planId: Signature) {
    forall i, j :: 0 <= i < j < |calls| && ForPlan(calls[i], scope, planId) && ForPlan(calls[j], scope, planId) ==>
      calls[i].reservationId != calls[j].reservationId
  }

  predicate ForPlan(s: Spending, scope: Scope, planId: Signature) {
    s.scope == scope && s.planId == planId
  }

  ghost predicate Issued(calls: seq<Spending>, scope: Scope, planId: Signature, id: string) {
    exists k :: 0 <= k < |calls| && ForPlan(calls[k], scope, planId) && calls[k].reservationId == id
  }

  lemma IssuedLater(calls: seq<Spending>, s: Spending, scope: Scope, planId: Signature, id: string)
    ensures Issued(calls, scope, planId, id) || (ForPlan(s, scope, planId) && s.reservationId == id) ==>
      Issued(calls + [s], scope, planId, id)
  {
    if Issued(calls, scope, planId, id) {
      var k :| 0 <= k < |calls| && ForPlan(calls[k], scope, planId) && calls[k].reservationId == id;
      assert (calls + [s])[k] == calls[k];
    }
    assert (calls + [s])[|calls|] == s;
  }

  lemma EntryIsOldOrNew(ls: Ledgers, s: Spending, scope: Scope, planId: Signature, i: nat)
    requires OwnLedger(Next(ls, s), scope, planId).Some? && i < |OwnLedger(Next(ls, s), scope, planId).value.entries|
    ensures var before, after := OwnLedger(ls, scope, planId), OwnLedger(Next(ls, s), scope, planId).value.entries;
      || (before.Some? && i < |before.value.entries| && before.value.entries[i] == after[i])
      || (ForPlan(s, scope, planId) && s.reservationId == after[i].id)
  {
    hide Permitted;
  }

  /** Every reservation in the plan's ledger was made by one of the calls for the plan. */
  ghost predicate AllIssued(ls: Ledgers, calls: seq<Spending>, scope: Scope, planId: Signature) {
    match OwnLedger(ls, scope, planId)
    case None => true
    case Some(l) => forall i :: 0 <= i < |l.entries| ==> Issued(calls, scope, planId, l.entries[i].id)
  }

  lemma NextAllIssued(ls: Ledgers, calls: seq<Spending>, s: Spending, scope: Scope, planId: Signature)
    requires AllIssued(ls, calls, scope, planId)
    ensures AllIssued(Next(ls, s), calls + [s], scope, planId)
  {
    hide Issued, Next, OwnLedger;
    var l0, l := OwnLedger(ls, scope, planId), OwnLedger(Next(ls, s), scope, planId);
    if l.Some? {
      forall i | 0 <= i < |l.value.entries| ensures Issued(calls + [s], scope, planId, l.value.entries[i].id) {
        EntryIsOldOrNew(ls, s, scope, planId, i);
        IssuedLater(calls, s, scope, planId, l.value.entries[i].id);
      }
    }
  }

  lemma {:induction false} ReservationsComeFromCalls(calls: seq<Spending>, scope: Scope, planId: Signature)
    ensures AllIssued(AfterAll(calls), calls, scope, planId)
  {
    hide Next, AllIssued;
    if calls == [] {
      NothingIssued(scope, planId);
    } else {
      ReservationsComeFromCalls(calls[..|calls| - 1], scope, planId);
      NextAllIssued(AfterAll(calls[..|calls| - 1]), calls[..|calls| - 1], calls[|calls| - 1], scope, planId);
      assert calls[..|calls| - 1] + [calls[|calls| - 1]] == calls;
    }
  }

  lemma NothingIssued(scope: Scope, planId: Signature)
    ensures AllIssued(map[], [], scope, planId)
  {
  }

  /** With distinct reservation ids, the next call for a plan is never taken for a repetition. */
  lemma NextIsNew(calls: seq<Spending>, scope: Scope, planId: Signature)
    requires calls != [] && DistinctReservations(calls, scope, planId) && ForPlan(calls[|calls| - 1], scope, planId)
    ensures var l := OwnLedger(AfterAll(calls[..|calls| - 1]), scope, planId);
      l.Some? ==> !Reserved(l.value.entries, calls[|calls| - 1].reservationId)
  {
    var before, s := calls[..|calls| - 1], calls[|calls| - 1];
    ReservationsComeFromCalls(before, scope, planId);
    var l := OwnLedger(AfterAll(before), scope, planId);
    if l.Some? {
      forall i | 0 <= i < |l.value.entries| ensures l.value.entries[i].id != s.reservationId {
        assert Issued(before, scope, planId, l.value.entries[i].id);
        var k :| 0 <= k < |before| && ForPlan(before[k], scope, planId)
          && before[k].reservationId == l.value.entries[i].id;
        assert calls[k] == before[k];
      }
    }
  }

  /** An accepted call under a new reservation id commits its amount; a refused one commits nothing. */
  lemma NewIsCommitted(ls: Ledgers, s: Spending)
    requires OwnLedger(ls, s.scope, s.planId).Some? ==>
      !Reserved(OwnLedger(ls, s.scope, s.planId).value.entries, s.reservationId)
    ensures Spent(Next(ls, s), s.scope, s.planId) == Spent(ls, s.scope, s.planId)
      + if Reserve(ls, s).Some? then s.amount.value else 0
  {
  }

  lemma NothingIsSpent(scope: Scope, planId: Signature)
    ensures Spent(map[], scope, planId) == 0
  {
  }

  lemma OtherPlansStay(ls: Ledgers, s: Spending, scope: Scope, planId: Signature)
    requires !ForPlan(s, scope, planId)
    ensures Spent(Next(ls, s), scope, planId) == Spent(ls, scope, planId)
  {
  }

  /** When no two calls for a plan share a reservation id, what its commands amount to is what its ledger has
      committed, so it stays under the cap. */
  lemma {:induction false} SentIsCommitted(calls: seq<Spending>, scope: Scope, planId: Signature, cap: nat)
    requires Capped(calls, scope, planId, cap) && DistinctReservations(calls, scope, planId)
    ensures SentFor(calls, scope, planId) == Spent(AfterAll(calls), scope, planId) <= cap
  {
    hide Reserve, Reserved, Next, Spent;
    CommittedStaysUnderTheCap(calls, scope, planId, cap);
    if calls != [] {
      var before, s := calls[..|calls| - 1], calls[|calls| - 1];
      SentIsCommitted(before, scope, planId, cap);
      if ForPlan(s, scope, planId) {
        NextIsNew(calls, scope, planId);
        NewIsCommitted(AfterAll(before), s);
      } else {
        OtherPlansStay(AfterAll(before), s, scope, planId);
      }
    } else {
      NothingIsSpent(scope, planId);
    }
  }

  // ----- reservation ids ------------------------------------------------------------------

  datatype Action = CreateJob | Fund | Complete | Reject

  datatype Issue = Issue(attemptId: string, action: Action)

  function ActionName(a: Action): string {
    match a
    case CreateJob => "create_job"
    case Fund => "fund"
    case Complete => "complete"
    case Reject => "reject"
  }

  /** `create_job` reserves under the attempt id, every other action under `attempt:action`. */
  function ReservationId(i: Issue): string {
    if i.action == CreateJob then i.attemptId else i.attemptId + ":" + ActionName(i.action)
  }

  /** One attempt id spells out another attempt's action. */
  predicate Spells(a: Issue, b: Issue) {
    a.action == CreateJob && b.action != CreateJob && a.attemptId == b.attemptId + ":" + ActionName(b.action)
  }

  lemma ActionSuffix(p: string, a: Action, q: string, b: Action)
    requires a != CreateJob && b != CreateJob && p + ":" + ActionName(a) == q + ":" + ActionName(b)
    ensures p == q && a == b
  {
    var s := p + ":" + ActionName(a);
    assert s[|s| - 1] == ActionName(a)[|ActionName(a)| - 1] == ActionName(b)[|ActionName(b)| - 1];
    assert a == b;
    assert p == s[..|s| - |ActionName(a)| - 1] == q;
  }

  /** Reservation ids of different (attempt, action) pairs coincide exactly when one creates a job for an attempt
      whose id spells out the other. */
  lemma ReservationsCollideExactly(a: Issue, b: Issue)
    requires a != b
    ensures ReservationId(a) == ReservationId(b) <==> Spells(a, b) || Spells(b, a)
  {
    if a.action != CreateJob && b.action != CreateJob && ReservationId(a) == ReservationId(b) {
      ActionSuffix(a.attemptId, a.action, b.attemptId, b.action);
    }
  }

  // ----- when the cap bounds what is sent -------------------------------------------------

  /** Calls that issue these (attempt, action) pairs, in this order. */
  ghost predicate CallsFor(calls: seq<Spending>, issues: seq<Issue>) {
    && |calls| == |issues|
    && forall i :: 0 <= i < |calls| ==>
      calls[i].reservationId == ReservationId(issues[i]) && calls[i].action == ActionName(issues[i].action)
  }

  ghost predicate NoneSpelled(issues: seq<Issue>) {
    forall i, j :: 0 <= i < |issues| && 0 <= j < |issues| ==> !Spells(issues[i], issues[j])
  }

  ghost predicate EachOnce(issues: seq<Issue>) {
    forall i, j :: 0 <= i < j < |issues| ==> issues[i] != issues[j]
  }

  ghost predicate StaysUnder(calls: seq<Spending>, scope: Scope, planId: Signature, cap: nat) {
    Capped(calls, scope, planId, cap) ==> SentFor(calls, scope, planId) <= cap
  }

  const HOME := Scope("tenant", "project")

  const PLAN := Signature("plan", "")

  const ONE := Approval(PLAN, HOME, {"step"}, "provider", "offering", 1,
    {"create_job", "fund", "complete", "reject"}, "USDC", 1, None, 1)

  function Costing(issue: Issue, amount: nat): Spending {
    Spending(ONE, HOME, PLAN, "step", "provider", "offering", 1, ActionName(issue.action), Some(amount), "USDC",
      ReservationId(issue), 0)
  }

  /** Issue the pairs in order; the i-th and the j-th cost one unit, the others nothing. */
  function TwoUnits(issues: seq<Issue>, i: nat, j: nat): (calls: seq<Spending>)
    ensures |calls| == |issues|
  {
    seq(|issues|, k requires 0 <= k < |issues| => Costing(issues[k], if k == i || k == j then 1 else 0))
  }

  ghost predicate Underway(ls: Ledgers, sent: nat, issues: seq<Issue>, i: nat, j: nat, m: nat)
    requires i < j < |issues| && m <= |issues|
  {
    var l := Body(ls, Costing(issues[i], 1));
    && Owns(l, HOME, PLAN) && l.currency == "USDC"
    && l.committed <= (if Reserved(l.entries, ReservationId(issues[i])) then 1 else 0)
    && (i < m ==> Reserved(l.entries, ReservationId(issues[i])))
    && sent == (if i < m then 1 else 0) + (if j < m then 1 else 0)
  }

  lemma TwoUnitsAt(issues: seq<Issue>, i: nat, j: nat, m: nat)
    requires m < |issues|
    ensures var calls := TwoUnits(issues, i, j);
      && calls[..m + 1][..m] == calls[..m]
      && calls[..m + 1][m] == Costing(issues[m], if m == i || m == j then 1 else 0)
  {
    hide Costing;
  }

  lemma {:induction false} AllAreSent(issues: seq<Issue>, i: nat, j: nat, m: nat)
    requires i < j < |issues| && m <= |issues| && ReservationId(issues[i]) == ReservationId(issues[j])
    ensures var calls := TwoUnits(issues, i, j)[..m];
      Underway(AfterAll(calls), SentFor(calls, HOME, PLAN), issues, i, j, m)
  {
    hide Reserve, ReservationId, TwoUnits, Underway, Costing, Next;
    var calls := TwoUnits(issues, i, j);
    if m > 0 {
      AllAreSent(issues, i, j, m - 1);
      TwoUnitsAt(issues, i, j, m - 1);
      OneMoreIsSent(AfterAll(calls[..m - 1]), SentFor(calls[..m - 1], HOME, PLAN), issues, i, j, m - 1);
      CostingIsHome(issues[m - 1], if m - 1 == i || m - 1 == j then 1 else 0);
    } else {
      NothingUnderway(issues, i, j);
    }
  }

  lemma CostingIsHome(issue: Issue, amount: nat)
    ensures var s := Costing(issue, amount); s.scope == HOME && s.planId == PLAN && s.amount == Some(amount)
  {
  }

  lemma NothingUnderway(issues: seq<Issue>, i: nat, j: nat)
    requires i < j < |issues|
    ensures Underway(map[], 0, issues, i, j, 0)
  {
  }

  lemma OneMoreIsSent(ls: Ledgers, sent: nat, issues: seq<Issue>, i: nat, j: nat, m: nat)
    requires i < j < |issues| && m < |issues| && ReservationId(issues[i]) == ReservationId(issues[j])
    requires Underway(ls, sent, issues, i, j, m)
    ensures var amount := if m == i || m == j then 1 else 0;
      && Reserve(ls, Costing(issues[m], amount)).Some?
      && Underway(Next(ls, Costing(issues[m], amount)), sent + amount, issues, i, j, m + 1)
  {
    hide SpendKey, ReservationId;
    var amount := if m == i || m == j then 1 else 0;
    var call, rid := Costing(issues[m], amount), ReservationId(issues[i]);
    var l := Body(ls, call);
    assert Permitted(call);
    if Reserve(ls, call).Some? && !Reserved(l.entries, call.reservationId) {
      var l' := Body(Next(ls, call), Costing(issues[i], 1));
      assert l'.entries[|l.entries|].id == call.reservationId;
      ReservedLater(l.entries, l'.entries[|l.entries|], rid);
    }
  }

  lemma ReservedLater(entries: seq<Reservation>, r: Reservation, id: string)
    ensures Reserved(entries + [r], id) <==> Reserved(entries, id) || r.id == id
  {
    if Reserved(entries, id) {
      var k :| 0 <= k < |entries| && entries[k].id == id;
      assert (entries + [r])[k].id == id;
    }
    assert (entries + [r])[|entries|] == r;
  }

  /** Two pairs under one reservation id: both commands are sent, and together they exceed the cap. */
  lemma SharedReservationOverspends(issues: seq<Issue>, i: nat, j: nat)
    requires i < j < |issues| && ReservationId(issues[i]) == ReservationId(issues[j])
    ensures CallsFor(TwoUnits(issues, i, j), issues) && !StaysUnder(TwoUnits(issues, i, j), HOME, PLAN, 1)
  {
    hide ReservationId, SentFor, AfterAll, Next;
    var calls := TwoUnits(issues, i, j);
    AllAreSent(issues, i, j, |issues|);
    assert calls[..|issues|] == calls;
  }

  /** For pairs issued once each, whatever is sent for a plan stays under its cap -- for all amounts, caps, plans and
      interleaved calls -- exactly when no pair spells out another. */
  lemma CapBoundsWhatIsSentExactly(issues: seq<Issue>)
    requires EachOnce(issues)
    ensures (forall calls, scope, planId, cap :: CallsFor(calls, issues) ==> StaysUnder(calls, scope, planId, cap))
      <==> NoneSpelled(issues)
  {
    hide StaysUnder;
    if NoneSpelled(issues) {
      forall calls, scope, planId, cap | CallsFor(calls, issues) ensures StaysUnder(calls, scope, planId, cap) {
        UnspelledStaysUnder(calls, issues, scope, planId, cap);
      }
    } else {
      var i, j :| 0 <= i < |issues| && 0 <= j < |issues| && Spells(issues[i], issues[j]);
      ReservationsCollideExactly(issues[i], issues[j]);
      if i < j {
        SharedReservationOverspends(issues, i, j);
      } else {
        SharedReservationOverspends(issues, j, i);
      }
    }
  }

  lemma UnspelledStaysUnder(calls: seq<Spending>, issues: seq<Issue>, scope: Scope, planId: Signature, cap: nat)
    requires EachOnce(issues) && NoneSpelled(issues) && CallsFor(calls, issues)
    ensures StaysUnder(calls, scope, planId, cap)
  {
    hide ReservationId;
    if Capped(calls, scope, planId, cap) {
      forall i, j | 0 <= i < j < |calls| ensures calls[i].reservationId != calls[j].reservationId {
        ReservationsCollideExactly(issues[i], issues[j]);
      }
      SentIsCommitted(calls, scope, planId, cap);
    }
  }
}
