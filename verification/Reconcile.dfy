/** `match_reconciliation_candidates`: attach a provider job to a persisted intent only when exactly one candidate
    can be meant. */
module Reconcile {
  import opened Options
  import opened Ordering
  import opened Types

  // ----- identities -----------------------------------------------------------------------

  predicate IsHex(c: char) {
    '0' <= c <= '9' || 'a' <= c <= 'f' || 'A' <= c <= 'F'
  }

  /** `^0x[0-9a-fA-F]{40}$`, matched fully. */
  predicate IsAddress(s: string) {
    |s| == 42 && s[0] == '0' && s[1] == 'x' && forall i :: 2 <= i < 42 ==> IsHex(s[i])
  }

  function LowerChar(c: char): char {
    if 'A' <= c <= 'Z' then c - 'A' + 'a' else c
  }

  /** `str.lower` on ASCII text. */
  function Lower(s: string): string {
    seq(|s|, i requires 0 <= i < |s| => LowerChar(s[i]))
  }

  /** `_same_identity`: exact, except that EVM addresses ignore case. */
  predicate SameIdentity(a: string, b: string) {
    a == b || (IsAddress(a) && IsAddress(b) && Lower(a) == Lower(b))
  }

  /** `_same_identity` is an equivalence relation. */
  lemma SameIdentityIsAnEquivalence(a: string, b: string, c: string)
    ensures SameIdentity(a, a)
    ensures SameIdentity(a, b) ==> SameIdentity(b, a)
    ensures SameIdentity(a, b) && SameIdentity(b, c) ==> SameIdentity(a, c)
  {
  }

  /** The value of a hexadecimal digit, in either case. */
  function Nibble(c: char): (n: nat)
    requires IsHex(c)
  {
    if '0' <= c <= '9' then c as int - '0' as int
    else if 'a' <= c <= 'f' then 10 + c as int - 'a' as int
    else 10 + c as int - 'A' as int
  }

  /** Both texts are `0x` and 40 hexadecimal digits, and these have the same values. */
  ghost predicate SameAddress(a: string, b: string) {
    && |a| == |b| == 42 && a[..2] == "0x" && b[..2] == "0x"
    && forall k :: 2 <= k < 42 ==> IsHex(a[k]) && IsHex(b[k]) && Nibble(a[k]) == Nibble(b[k])
  }

  lemma SameDigit(c: char, d: char)
    requires IsHex(c) && IsHex(d)
    ensures LowerChar(c) == LowerChar(d) <==> Nibble(c) == Nibble(d)
  {
  }

  /** Two identities are the same exactly when they are equal texts or one address. */
  lemma SameIdentityMeans(a: string, b: string)
    ensures SameIdentity(a, b) <==> a == b || SameAddress(a, b)
  {
    hide LowerChar, IsHex, Nibble;
    if IsAddress(a) && IsAddress(b) {
      assert a[..2] == "0x" && b[..2] == "0x";
      forall k | 2 <= k < 42
        ensures IsHex(a[k]) && IsHex(b[k]) && (Lower(a)[k] == Lower(b)[k] <==> Nibble(a[k]) == Nibble(b[k]))
      {
        SameDigit(a[k], b[k]);
      }
      if SameAddress(a, b) {
        forall k | 0 <= k < 42 ensures Lower(a)[k] == Lower(b)[k] {
          if k < 2 { assert a[k] == a[..2][k] && b[k] == b[..2][k]; }
        }
        assert Lower(a) == Lower(b);
      }
    }
  }

  // ----- candidates -----------------------------------------------------------------------

  datatype JobRecord = JobRecord(
    jobId: string,
    chainId: int,
    lifecycle: string,
    fixture: bool,
    providerId: Option<string>,
    offeringId: Option<string>,
    offeringName: Option<string>,
    requirements: Option<Signature>,
    transactions: seq<string>)

  /** The identity that was persisted before the command was sent. */
  datatype Intent = Intent(
    providerId: string,
    offeringId: Option<string>,
    chainId: int,
    requirements: Option<Signature>,
    transactions: set<string>,
    offeringName: Option<string>,
    expectedJobId: Option<string>)

  /** Both sides name the thing and name it differently. */
  predicate Disagree<T(==)>(expected: Option<T>, actual: Option<T>) {
    expected.Some? && actual.Some? && expected != actual
  }

  predicate SharesTransaction(i: Intent, r: JobRecord) {
    exists k, t :: 0 <= k < |r.transactions| && t in i.transactions && SameIdentity(r.transactions[k], t)
  }

  /** The first identity that conflicts with the intent, in the order of the checks. */
  function Conflict(i: Intent, r: JobRecord): Option<string> {
    if i.expectedJobId.Some? && i.expectedJobId.value != r.jobId then Some("job")
    else if r.chainId != i.chainId then Some("chain")
    else if r.providerId.Some? && !SameIdentity(r.providerId.value, i.providerId) then Some("provider")
    else if Disagree(i.offeringId, r.offeringId) then Some("offering")
    else if Disagree(i.offeringName, r.offeringName) then Some("offering")
    else if Disagree(i.requirements, r.requirements) then Some("requirements")
    else if i.transactions != {} && r.transactions != [] && !SharesTransaction(i, r) then Some("transaction")
    else None
  }

  predicate Agrees(i: Intent, r: JobRecord) {
    Conflict(i, r).None?
  }

  /** The record names the provider and the offering, so it can be attached. */
  predicate Identifies(i: Intent, r: JobRecord) {
    && r.providerId.Some?
    && ( || (i.offeringId.Some? && r.offeringId == i.offeringId)
         || (r.offeringId.None? && i.offeringName.Some? && r.offeringName == i.offeringName))
  }

  datatype Match =
    | Attach(record: JobRecord)
    | NoneMatch
    | SeveralMatch
    | LacksIdentity
    | Conflicts(kinds: seq<string>)

  /** `ReconciliationOutcome.MANUAL`. */
  predicate Manual(m: Match) {
    m.NoneMatch? || m.SeveralMatch? || m.LacksIdentity?
  }

  function Plausible(i: Intent, candidates: seq<JobRecord>): seq<JobRecord> {
    if candidates == [] then [] else
    var rest, r := Plausible(i, candidates[..|candidates| - 1]), candidates[|candidates| - 1];
    if Agrees(i, r) then rest + [r] else rest
  }

  function Mismatches(i: Intent, candidates: seq<JobRecord>): set<string> {
    set r | r in candidates && Conflict(i, r).Some? :: Conflict(i, r).value
  }

  function MatchOf(i: Intent, candidates: seq<JobRecord>): Match {
    var plausible := Plausible(i, candidates);
    if candidates == [] then NoneMatch
    else if plausible == [] then Conflicts(SortedKeys(Mismatches(i, candidates)))
    else if |plausible| > 1 then SeveralMatch
    else if Identifies(i, plausible[0]) then Attach(plausible[0])
    else LacksIdentity
  }

  method MatchReconciliationCandidates(i: Intent, candidates: seq<JobRecord>) returns (m: Match)
    ensures m == MatchOf(i, candidates) && Decided(i, candidates, m)
  {
    MatchIsDecided(i, candidates);
    if candidates == [] {
      return NoneMatch;
    }
    var mismatches: set<string> := {};
    var plausible: seq<JobRecord> := [];
    for k := 0 to |candidates|
      invariant plausible == Plausible(i, candidates[..k])
      invariant mismatches == Mismatches(i, candidates[..k])
    {
      var r := candidates[k];
      assert candidates[..k + 1] == candidates[..k] + [r];
      var conflict := Conflict(i, r);
      if conflict.Some? {
        mismatches := mismatches + {conflict.value};
      } else {
        plausible := plausible + [r];
      }
    }
    assert candidates[..|candidates|] == candidates;
    if plausible == [] {
      return Conflicts(SortedKeys(mismatches));
    }
    if |plausible| > 1 {
      return SeveralMatch;
    }
    return if Identifies(i, plausible[0]) then Attach(plausible[0]) else LacksIdentity;
  }

  // ----- the decision, field by field -----------------------------------------------------

  const KINDS := ["job", "chain", "provider", "offering", "offering", "requirements", "transaction"]

  /** The candidate differs from the intent in its n-th respect: both name the thing, and not the same one. */
  predicate DiffersIn(i: Intent, r: JobRecord, n: nat)
    requires n < |KINDS|
  {
    match n
    case 0 => i.expectedJobId.Some? && r.jobId != i.expectedJobId.value
    case 1 => r.chainId != i.chainId
    case 2 => r.providerId.Some? && !SameIdentity(r.providerId.value, i.providerId)
    case 3 => i.offeringId.Some? && r.offeringId.Some? && r.offeringId.value != i.offeringId.value
    case 4 => i.offeringName.Some? && r.offeringName.Some? && r.offeringName.value != i.offeringName.value
    case 5 => i.requirements.Some? && r.requirements.Some? && r.requirements.value != i.requirements.value
    case _ => i.transactions != {} && r.transactions != [] && forall t, k ::
      t in i.transactions && 0 <= k < |r.transactions| ==> !SameIdentity(r.transactions[k], t)
  }

  predicate Differs(i: Intent, r: JobRecord) {
    exists n :: 0 <= n < |KINDS| && DiffersIn(i, r, n)
  }

  predicate DiffersFirstIn(i: Intent, r: JobRecord, n: nat)
    requires n < |KINDS|
  {
    DiffersIn(i, r, n) && forall m :: 0 <= m < n ==> !DiffersIn(i, r, m)
  }

  /** The candidate names its provider, and the intended offering by its id, or by its name when it has no id. */
  predicate NamesOffering(i: Intent, r: JobRecord) {
    && r.providerId.Some?
    && if r.offeringId.Some? then i.offeringId == r.offeringId
       else i.offeringName.Some? && r.offeringName == i.offeringName
  }

  ghost predicate OnlyOneFits(i: Intent, candidates: seq<JobRecord>, k: nat) {
    && k < |candidates| && !Differs(i, candidates[k])
    && forall j :: 0 <= j < |candidates| && j != k ==> Differs(i, candidates[j])
  }

  /** When each decision is taken: a job is attached when it is the only candidate without a difference and names what
      was intended; conflicts are reported when every candidate differs, each by the first respect in which one does. */
  ghost predicate Decided(i: Intent, candidates: seq<JobRecord>, m: Match) {
    match m
    case NoneMatch => candidates == []
    case Attach(r) => exists k: nat :: OnlyOneFits(i, candidates, k) && candidates[k] == r && NamesOffering(i, r)
    case LacksIdentity => exists k: nat :: OnlyOneFits(i, candidates, k) && !NamesOffering(i, candidates[k])
    case SeveralMatch =>
      exists j, k :: 0 <= j < k < |candidates| && !Differs(i, candidates[j]) && !Differs(i, candidates[k])
    case Conflicts(kinds) =>
      && candidates != [] && (forall r :: r in candidates ==> Differs(i, r))
      && (forall kind :: kind in kinds <==> exists r :: r in candidates && ReportedAs(i, r, kind))
      && forall j, k :: 0 <= j < k < |kinds| ==> StringLe(kinds[j], kinds[k]) && kinds[j] != kinds[k]
  }

  ghost predicate ReportedAs(i: Intent, r: JobRecord, kind: string) {
    exists n :: 0 <= n < |KINDS| && DiffersFirstIn(i, r, n) && KINDS[n] == kind
  }

  lemma ConflictIsFirstDifference(i: Intent, r: JobRecord)
    ensures Agrees(i, r) <==> !Differs(i, r)
    ensures forall kind :: Conflict(i, r) == Some(kind) <==> ReportedAs(i, r, kind)
  {
    hide SameIdentity;
    match Conflict(i, r) {
      case None =>
        assert forall n :: 0 <= n < |KINDS| ==> !DiffersIn(i, r, n);
      case Some(kind) =>
        var n := FirstDifference(i, r);
        assert DiffersFirstIn(i, r, n) && KINDS[n] == kind;
        forall m | 0 <= m < |KINDS| && DiffersFirstIn(i, r, m) ensures m == n {
        }
    }
  }

  lemma FirstDifference(i: Intent, r: JobRecord) returns (n: nat)
    requires Conflict(i, r).Some?
    ensures n < |KINDS| && DiffersFirstIn(i, r, n) && Conflict(i, r) == Some(KINDS[n])
  {
    hide SameIdentity;
    n := if DiffersIn(i, r, 0) then 0 else if DiffersIn(i, r, 1) then 1 else if DiffersIn(i, r, 2) then 2
      else if DiffersIn(i, r, 3) then 3 else if DiffersIn(i, r, 4) then 4 else if DiffersIn(i, r, 5) then 5 else 6;
  }

  lemma IdentifiesNames(i: Intent, r: JobRecord)
    ensures Identifies(i, r) <==> NamesOffering(i, r)
  {
  }

  // ----- matching never guesses -----------------------------------------------------------

  ghost predicate OnlyAgreeing(i: Intent, candidates: seq<JobRecord>, k: nat)
    requires k < |candidates|
  {
    Agrees(i, candidates[k]) && forall j :: 0 <= j < |candidates| && j != k ==> !Agrees(i, candidates[j])
  }

  lemma {:induction false} PlausibleJoins(i: Intent, a: seq<JobRecord>, b: seq<JobRecord>)
    ensures Plausible(i, a + b) == Plausible(i, a) + Plausible(i, b)
  {
    if b == [] {
      assert a + b == a;
    } else {
      assert (a + b)[..|a + b| - 1] == a + b[..|b| - 1];
      PlausibleJoins(i, a, b[..|b| - 1]);
    }
  }

  lemma {:induction false} NonePlausible(i: Intent, candidates: seq<JobRecord>)
    ensures Plausible(i, candidates) == [] <==> forall j :: 0 <= j < |candidates| ==> !Agrees(i, candidates[j])
  {
    if candidates != [] {
      NonePlausible(i, candidates[..|candidates| - 1]);
    }
  }

  lemma Around(candidates: seq<JobRecord>, k: nat)
    requires k < |candidates|
    ensures candidates == candidates[..k] + [candidates[k]] + candidates[k + 1..]
  {
  }

  lemma OnePlausible(i: Intent, candidates: seq<JobRecord>, k: nat)
    requires k < |candidates| && Agrees(i, candidates[k])
    ensures Plausible(i, candidates) ==
      Plausible(i, candidates[..k]) + [candidates[k]] + Plausible(i, candidates[k + 1..])
  {
    Around(candidates, k);
    PlausibleJoins(i, candidates[..k] + [candidates[k]], candidates[k + 1..]);
    PlausibleJoins(i, candidates[..k], [candidates[k]]);
    assert [candidates[k]][..0] == [];
  }

  lemma OnlyOnePlausible(i: Intent, candidates: seq<JobRecord>, k: nat)
    requires k < |candidates| && Agrees(i, candidates[k])
    ensures |Plausible(i, candidates)| == 1 <==> OnlyAgreeing(i, candidates, k)
    ensures |Plausible(i, candidates)| == 1 ==> Plausible(i, candidates) == [candidates[k]]
  {
    hide Agrees;
    OnePlausible(i, candidates, k);
    NonePlausible(i, candidates[..k]);
    NonePlausible(i, candidates[k + 1..]);
    if OnlyAgreeing(i, candidates, k) {
      var tail := candidates[k + 1..];
      forall j | 0 <= j < |tail| ensures !Agrees(i, tail[j]) {
        assert tail[j] == candidates[k + 1 + j];
      }
    } else {
      var j :| 0 <= j < |candidates| && j != k && Agrees(i, candidates[j]);
      if j < k {
        assert candidates[..k][j] == candidates[j];
      } else {
        assert candidates[k + 1..][j - k - 1] == candidates[j];
      }
    }
  }

  /** A job is attached exactly when one and only one candidate is consistent with everything persisted and that
      candidate carries provider and offering identity. */
  lemma AttachesExactly(i: Intent, candidates: seq<JobRecord>, r: JobRecord)
    ensures MatchOf(i, candidates) == Attach(r) <==>
      exists k :: 0 <= k < |candidates| && candidates[k] == r && OnlyAgreeing(i, candidates, k) && Identifies(i, r)
  {
    hide Conflict, Identifies, Mismatches;
    NonePlausible(i, candidates);
    forall k | 0 <= k < |candidates| && Agrees(i, candidates[k])
      ensures |Plausible(i, candidates)| == 1 <==> OnlyAgreeing(i, candidates, k)
      ensures |Plausible(i, candidates)| == 1 ==> Plausible(i, candidates) == [candidates[k]]
    {
      OnlyOnePlausible(i, candidates, k);
    }
  }

  lemma {:induction false} PlausibleMultiset(i: Intent, candidates: seq<JobRecord>, r: JobRecord)
    ensures multiset(Plausible(i, candidates))[r] == if Agrees(i, r) then multiset(candidates)[r] else 0
  {
    hide Agrees;
    if candidates != [] {
      var front := candidates[..|candidates| - 1];
      PlausibleMultiset(i, front, r);
      assert candidates == front + [candidates[|candidates| - 1]];
    }
  }

  /** The whole decision, reported kinds of conflict included, does not depend on the candidates' order. */
  lemma DecisionIgnoresOrder(i: Intent, a: seq<JobRecord>, b: seq<JobRecord>)
    requires multiset(a) == multiset(b)
    ensures MatchOf(i, a) == MatchOf(i, b)
  {
    hide Conflict, Identifies, SortedKeys;
    assert forall r :: r in a <==> r in multiset(a);
    assert forall r :: r in b <==> r in multiset(b);
    assert Mismatches(i, a) == Mismatches(i, b);
    var p, q := Plausible(i, a), Plausible(i, b);
    forall r ensures multiset(p)[r] == multiset(q)[r] {
      PlausibleMultiset(i, a, r);
      PlausibleMultiset(i, b, r);
    }
    assert multiset(p) == multiset(q);
    assert |p| == |multiset(p)| == |multiset(q)| == |q|;
    assert |a| == |multiset(a)| == |multiset(b)| == |b|;
    if |p| == 1 {
      assert p[0] in multiset(q);
    }
  }

  /** Adding a conflicting candidate, at any place, never changes an attachment. */
  lemma ConflictingCandidateIsIgnored(i: Intent, front: seq<JobRecord>, back: seq<JobRecord>, c: JobRecord)
    requires MatchOf(i, front + back).Attach? && !Agrees(i, c)
    ensures MatchOf(i, front + [c] + back) == MatchOf(i, front + back)
  {
    hide Conflict, Identifies;
    PlausibleJoins(i, front, back);
    PlausibleJoins(i, front + [c], back);
    PlausibleJoins(i, front, [c]);
    assert [c][..0] == [];
  }

  /** Adding a second consistent candidate always turns the decision to manual. */
  lemma SecondConsistentCandidateIsManual(i: Intent, front: seq<JobRecord>, back: seq<JobRecord>, c: JobRecord)
    requires Agrees(i, c) && Plausible(i, front + back) != []
    ensures MatchOf(i, front + [c] + back) == SeveralMatch && Manual(MatchOf(i, front + [c] + back))
  {
    hide Conflict, Identifies;
    PlausibleJoins(i, front, back);
    PlausibleJoins(i, front + [c], back);
    PlausibleJoins(i, front, [c]);
    assert [c][..0] == [];
  }

  lemma MatchIsDecided(i: Intent, candidates: seq<JobRecord>)
    ensures Decided(i, candidates, MatchOf(i, candidates))
  {
    hide Conflict, Identifies, Differs, NamesOffering, ReportedAs;
    forall r ensures Agrees(i, r) <==> !Differs(i, r)
      ensures forall kind :: Conflict(i, r) == Some(kind) <==> ReportedAs(i, r, kind)
    {
      ConflictIsFirstDifference(i, r);
    }
    NonePlausible(i, candidates);
    var plausible := Plausible(i, candidates);
    if plausible == [] {
      forall r | r in candidates ensures Differs(i, r) { }
    } else if |plausible| == 1 {
      var k :| 0 <= k < |candidates| && Agrees(i, candidates[k]);
      OnlyOnePlausible(i, candidates, k);
      IdentifiesNames(i, candidates[k]);
      assert OnlyOneFits(i, candidates, k);
    } else {
      var k :| 0 <= k < |candidates| && Agrees(i, candidates[k]);
      OnlyOnePlausible(i, candidates, k);
      var j :| 0 <= j < |candidates| && j != k && Agrees(i, candidates[j]);
    }
  }

  /** So an attached job is on the intended chain, by the intended provider and under the intended offering, disagrees
      with nothing that was persisted, and shares a transaction where both sides list some. */
  lemma AttachedJobIsTheIntended(i: Intent, candidates: seq<JobRecord>)
    requires MatchOf(i, candidates).Attach?
    ensures var r := MatchOf(i, candidates).record;
      && r in candidates && r.chainId == i.chainId
      && r.providerId.Some? && (r.providerId.value == i.providerId || SameAddress(r.providerId.value, i.providerId))
      && (r.offeringId.Some? ==> i.offeringId == r.offeringId)
      && (r.offeringId.None? ==> r.offeringName.Some? && i.offeringName == r.offeringName)
      && (i.expectedJobId.Some? ==> r.jobId == i.expectedJobId.value)
      && (i.offeringName.Some? && r.offeringName.Some? ==> r.offeringName == i.offeringName)
      && (i.requirements.Some? && r.requirements.Some? ==> r.requirements == i.requirements)
      && (i.transactions != {} && r.transactions != [] ==>
          exists t, k :: t in i.transactions && 0 <= k < |r.transactions| && SameIdentity(r.transactions[k], t))
  {
    hide MatchOf, SameIdentity, SameAddress;
    MatchIsDecided(i, candidates);
    var r := MatchOf(i, candidates).record;
    assert forall n :: 0 <= n < |KINDS| ==> !DiffersIn(i, r, n);
    assert !DiffersIn(i, r, 0) && !DiffersIn(i, r, 1) && !DiffersIn(i, r, 2) && !DiffersIn(i, r, 3);
    assert !DiffersIn(i, r, 4) && !DiffersIn(i, r, 5) && !DiffersIn(i, r, 6);
    SameIdentityMeans(r.providerId.value, i.providerId);
  }
}
