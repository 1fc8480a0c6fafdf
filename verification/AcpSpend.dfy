/** Money over whole runs of the adapter: in any interleaving, disciplined or not, what the commands for a plan amount
    to stays under the plan's cap, provided that no two payments share a reservation id. */
module AcpSpend {
  import opened Options
  import opened Json
  import opened Topology
  import opened Types
  import opened Core
  import opened Store
  import opened Engine
  import opened Spend
  import opened Reconcile
  import opened Acp
  import opened AcpProtocol

  // ----- what was reserved ----------------------------------------------------------------

  predicate Books(y: System, s: State, i: nat) {
    IsPay(y, i) && At(s, i) == Checked && At(Move(y, s, i), i) == Booked
  }

  /** The payments that reserved their amount, in order. */
  function Entered(y: System, moves: seq<nat>): seq<nat> {
    if moves == [] then [] else
    var before, i := moves[..|moves| - 1], moves[|moves| - 1];
    if Books(y, Interleave(y, before), i) then Entered(y, before) + [i] else Entered(y, before)
  }

  ghost predicate Once(ids: seq<nat>) {
    forall j, k :: 0 <= j < k < |ids| ==> ids[j] != ids[k]
  }

  ghost predicate AllPay(y: System, ids: seq<nat>) {
    forall k :: 0 <= k < |ids| ==> IsPay(y, ids[k])
  }

  function Calls(y: System, ids: seq<nat>): (calls: seq<Spending>)
    requires AllPay(y, ids)
    ensures |calls| == |ids|
    ensures forall k :: 0 <= k < |ids| ==> calls[k] == SpendingOf(y.duties[ids[k]].order)
  {
    seq(|ids|, k requires 0 <= k < |ids| => SpendingOf(y.duties[ids[k]].order))
  }

  predicate PaysFor(y: System, i: nat, scope: Scope, planId: Signature) {
    IsPay(y, i) && y.duties[i].order.scope == scope && y.duties[i].order.planId == planId
  }

  function Price(y: System, i: nat, scope: Scope, planId: Signature): nat {
    if PaysFor(y, i, scope, planId) && y.duties[i].order.amount.Some? then y.duties[i].order.amount.value else 0
  }

  function Total(y: System, ids: seq<nat>, scope: Scope, planId: Signature): nat {
    if ids == [] then 0 else Total(y, ids[..|ids| - 1], scope, planId) + Price(y, ids[|ids| - 1], scope, planId)
  }

  /** The payment has not reserved yet. */
  predicate Early(p: Phase) {
    p.Ready? || p.Checking? || p.Checked?
  }

  /** The payment has reserved and not sent yet. */
  predicate Ahead(p: Phase) {
    p.Booked? || p.Intending? || p.Persisted?
  }

  /** Reservations come before commands, each thread reserves and sends once, the ledgers are those of the calls. */
  ghost predicate Balance(y: System, s: State, entered: seq<nat>) {
    && AllPay(y, entered) && Once(entered) && Once(s.log)
    && (forall i :: i in entered ==> !Early(At(s, i)))
    && (forall i: nat :: Ahead(At(s, i)) ==> i in entered && i !in s.log)
    && (forall i :: i in s.log ==> i in entered)
    && s.ledgers == AfterAll(Calls(y, entered))
  }

  // ----- one move -------------------------------------------------------------------------

  /** A move that touches neither ledgers nor log: the thread neither goes back before its reservation nor passes it. */
  ghost predicate Plain(s: State, s': State, i: nat) {
    && s'.ledgers == s.ledgers && s'.log == s.log
    && (forall j: nat :: j != i ==> At(s', j) == At(s, j))
    && (Early(At(s', i)) ==> Early(At(s, i))) && (Ahead(At(s', i)) ==> Ahead(At(s, i)))
  }

  lemma PayKinds(y: System, s: State, i: nat)
    requires IsPay(y, i) && !At(s, i).Releasing?
    ensures var s' := Move(y, s, i);
      if Books(y, s, i) then
        && Reserve(s.ledgers, SpendingOf(y.duties[i].order)) == Some(s'.ledgers) && s'.log == s.log
        && (forall j: nat :: j != i ==> At(s', j) == At(s, j))
      else if At(s, i) == Persisted then
        && s'.ledgers == s.ledgers && s'.log == s.log + [i] && At(s', i) == InFlight
        && (forall j: nat :: j != i ==> At(s', j) == At(s, j))
      else Plain(s, s', i)
  {
    hide Reserve, SpendingOf, Stops, Put, SetHead, GetAttempt, Head, Marked, StatusAfter, HeadAfterMark, IntentOf;
    hide ReconcileMove, ObserveMove, FinalizeMove, Release;
  }

  lemma Booking(y: System, s: State, i: nat)
    requires Books(y, s, i)
    ensures IsPay(y, i) && Reserve(s.ledgers, SpendingOf(y.duties[i].order)) == Some(Move(y, s, i).ledgers)
  {
    hide Reserve, SpendingOf, Move;
    PayKinds(y, s, i);
  }

  lemma OtherKinds(y: System, s: State, i: nat)
    requires i in y.duties && (!y.duties[i].Pay? || At(s, i).Releasing?)
    ensures Plain(s, Move(y, s, i), i)
  {
    hide Put, SetHead, GetAttempt, Head, Observed, HeadAfterObservation, Closable, ClosedAttempt, ClosedWork, PayMove;
  }

  lemma NoKind(y: System, s: State, i: nat)
    requires i !in y.duties
    ensures Move(y, s, i) == s
  {
  }

  // ----- whole runs -----------------------------------------------------------------------

  lemma MoveKeepsBalance(y: System, s: State, entered: seq<nat>, i: nat)
    requires Balance(y, s, entered)
    ensures Balance(y, Move(y, s, i), if Books(y, s, i) then entered + [i] else entered)
  {
    hide Move, Reserve, AfterAll, SpendingOf;
    if i !in y.duties { NoKind(y, s, i); }
    else if IsPay(y, i) && !At(s, i).Releasing? { PayKinds(y, s, i); }
    else { OtherKinds(y, s, i); }
    if Books(y, s, i) {
      var calls := Calls(y, entered + [i]);
      assert calls[..|entered|] == Calls(y, entered);
      CallsGrow(y, entered, i);
    }
  }

  lemma CallsGrow(y: System, entered: seq<nat>, i: nat)
    requires AllPay(y, entered) && IsPay(y, i)
    ensures AllPay(y, entered + [i])
    ensures AfterAll(Calls(y, entered + [i])) == Next(AfterAll(Calls(y, entered)), SpendingOf(y.duties[i].order))
  {
    hide Next, SpendingOf;
    var calls := Calls(y, entered + [i]);
    assert calls[..|calls| - 1] == Calls(y, entered);
  }

  lemma {:induction false} RunKeepsBalance(y: System, moves: seq<nat>)
    ensures Balance(y, Interleave(y, moves), Entered(y, moves))
  {
    hide Move, Balance, Books;
    if moves == [] {
      NothingBooked(y);
    } else {
      RunKeepsBalance(y, moves[..|moves| - 1]);
      MoveKeepsBalance(y, Interleave(y, moves[..|moves| - 1]), Entered(y, moves[..|moves| - 1]), moves[|moves| - 1]);
    }
  }

  lemma NothingBooked(y: System)
    ensures Balance(y, START, [])
  {
  }

  // ----- sums -----------------------------------------------------------------------------

  lemma {:induction false} TotalWithout(y: System, ids: seq<nat>, k: nat, scope: Scope, planId: Signature)
    requires k < |ids|
    ensures Total(y, ids, scope, planId)
      == Total(y, ids[..k] + ids[k + 1..], scope, planId) + Price(y, ids[k], scope, planId)
    decreases |ids|
  {
    hide Price;
    var n := |ids| - 1;
    if k < n {
      TotalWithout(y, ids[..n], k, scope, planId);
      var rest := ids[..k] + ids[k + 1..];
      assert rest[..|rest| - 1] == ids[..n][..k] + ids[..n][k + 1..];
    } else {
      assert ids[..k] + ids[k + 1..] == ids[..n];
    }
  }

  /** What is sent is part of what is reserved. */
  lemma {:induction false} PartIsLess(y: System, part: seq<nat>, whole: seq<nat>, scope: Scope, planId: Signature)
    requires Once(part) && forall i :: i in part ==> i in whole
    ensures Total(y, part, scope, planId) <= Total(y, whole, scope, planId)
    decreases |part|
  {
    hide Price;
    if part != [] {
      var n := |part| - 1;
      assert part[n] in whole;
      var k :| 0 <= k < |whole| && whole[k] == part[n];
      var rest := whole[..k] + whole[k + 1..];
      forall i | i in part[..n] ensures i in rest {
        var j :| 0 <= j < n && part[j] == i;
        assert part[j] in whole && part[j] != part[n];
        var m :| 0 <= m < |whole| && whole[m] == i;
        if m < k { assert rest[m] == i; } else { assert rest[m - 1] == i; }
      }
      PartIsLess(y, part[..n], rest, scope, planId);
      TotalWithout(y, whole, k, scope, planId);
    }
  }

  /** Everything that entered was accepted, so it is what the ledger calls sent. */
  lemma {:induction false} EnteredIsAccepted(y: System, moves: seq<nat>, scope: Scope, planId: Signature)
    ensures AllPay(y, Entered(y, moves))
    ensures SentFor(Calls(y, Entered(y, moves)), scope, planId) == Total(y, Entered(y, moves), scope, planId)
  {
    hide Move, Balance, Books, Reserve, SpendingOf;
    RunKeepsBalance(y, moves);
    BalanceIsOfPayments(y, Interleave(y, moves), Entered(y, moves));
    if moves != [] {
      var before, i := moves[..|moves| - 1], moves[|moves| - 1];
      EnteredIsAccepted(y, before, scope, planId);
      RunKeepsBalance(y, before);
      BalanceIsOfPayments(y, Interleave(y, before), Entered(y, before));
      if Books(y, Interleave(y, before), i) {
        Booking(y, Interleave(y, before), i);
        var calls := Calls(y, Entered(y, moves));
        assert calls[..|calls| - 1] == Calls(y, Entered(y, before));
        AcceptedHasAmount(y, Interleave(y, before).ledgers, i);
      }
    }
  }

  /** Whoever reserved was approved. */
  lemma {:induction false} EnteredIsApproved(y: System, moves: seq<nat>)
    ensures forall i :: i in Entered(y, moves) ==> IsPay(y, i) && OrderAllowed(y.duties[i].order)
  {
    hide Move, Books, OrderAllowed, Reserve;
    if moves != [] {
      var before, i := moves[..|moves| - 1], moves[|moves| - 1];
      EnteredIsApproved(y, before);
      if Books(y, Interleave(y, before), i) {
        Booking(y, Interleave(y, before), i);
        OrdersSpendAsAllowed(Interleave(y, before).ledgers, y.duties[i].order);
      }
    }
  }

  /** In every interleaving, every command that is sent is one that its approval allows. */
  lemma CommandsAreApproved(y: System, moves: seq<nat>)
    ensures forall i :: i in Interleave(y, moves).log ==> IsPay(y, i) && OrderAllowed(y.duties[i].order)
  {
    hide Interleave, Entered, OrderAllowed;
    RunKeepsBalance(y, moves);
    EnteredIsApproved(y, moves);
  }

  lemma BalanceIsOfPayments(y: System, s: State, entered: seq<nat>)
    requires Balance(y, s, entered)
    ensures AllPay(y, entered) && s.ledgers == AfterAll(Calls(y, entered)) && Once(entered) && Once(s.log)
    ensures forall i :: i in s.log ==> i in entered
  {
  }

  lemma AcceptedHasAmount(y: System, ls: Ledgers, i: nat)
    requires IsPay(y, i) && Reserve(ls, SpendingOf(y.duties[i].order)).Some?
    ensures y.duties[i].order.amount.Some?
    ensures SpendingOf(y.duties[i].order).scope == y.duties[i].order.scope
    ensures SpendingOf(y.duties[i].order).planId == y.duties[i].order.planId
    ensures SpendingOf(y.duties[i].order).amount == y.duties[i].order.amount
  {
  }

  /** No two payments for the plan share a reservation id. */
  ghost predicate UnsharedReservations(y: System, scope: Scope, planId: Signature) {
    forall i, j :: PaysFor(y, i, scope, planId) && PaysFor(y, j, scope, planId) && i != j ==>
      Apart(y.duties[i].order, y.duties[j].order)
  }

  predicate Apart(o: Order, p: Order) {
    ReservationId(Issue(o.attemptId, o.action)) != ReservationId(Issue(p.attemptId, p.action))
  }

  ghost predicate SameCap(y: System, scope: Scope, planId: Signature, cap: nat) {
    forall i :: PaysFor(y, i, scope, planId) ==> y.duties[i].order.approval.maxTotal == cap
  }

  /** In every interleaving the commands sent for a plan amount to at most its cap. */
  lemma CommandsStayUnderTheCap(y: System, moves: seq<nat>, scope: Scope, planId: Signature, cap: nat)
    requires UnsharedReservations(y, scope, planId) && SameCap(y, scope, planId, cap)
    ensures Total(y, Interleave(y, moves).log, scope, planId) <= cap
  {
    hide Move, Balance, Total, SentFor, ReservationId;
    var entered := Entered(y, moves);
    RunKeepsBalance(y, moves);
    BalanceIsOfPayments(y, Interleave(y, moves), entered);
    EnteredIsAccepted(y, moves, scope, planId);
    PartIsLess(y, Interleave(y, moves).log, entered, scope, planId);
    var calls := Calls(y, entered);
    forall j, k | 0 <= j < k < |calls| && ForPlan(calls[j], scope, planId) && ForPlan(calls[k], scope, planId)
      ensures calls[j].reservationId != calls[k].reservationId
    {
      assert PaysFor(y, entered[j], scope, planId) && PaysFor(y, entered[k], scope, planId);
      assert Apart(y.duties[entered[j]].order, y.duties[entered[k]].order);
    }
    SentIsCommitted(calls, scope, planId, cap);
  }

  function PairOf(y: System, i: nat): Issue
    requires IsPay(y, i)
  {
    Issue(y.duties[i].order.attemptId, y.duties[i].order.action)
  }

  /** Issuing each (attempt, action) pair at most once is enough when no attempt id spells out another pair. */
  lemma PairsIssuedOnceStayUnderTheCap(y: System, moves: seq<nat>, scope: Scope, planId: Signature, cap: nat)
    requires forall i, j :: PaysFor(y, i, scope, planId) && PaysFor(y, j, scope, planId) ==>
      (i != j ==> PairOf(y, i) != PairOf(y, j)) && !Spells(PairOf(y, i), PairOf(y, j))
    requires SameCap(y, scope, planId, cap)
    ensures Total(y, Interleave(y, moves).log, scope, planId) <= cap
  {
    hide Interleave, Total, Spells, ReservationId;
    forall i, j | PaysFor(y, i, scope, planId) && PaysFor(y, j, scope, planId) && i != j
      ensures Apart(y.duties[i].order, y.duties[j].order)
    {
      ReservationsCollideExactly(PairOf(y, i), PairOf(y, j));
    }
    CommandsStayUnderTheCap(y, moves, scope, planId, cap);
  }
}
