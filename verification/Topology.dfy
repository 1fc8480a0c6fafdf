/** `topological_order` on a dependency graph: step ids in declaration order, and for each id the set of
    ids it depends on.  The result is sorted by longest dependency chain, then by declaration; the function
    fails exactly on cyclic graphs. */
module Topology {
  import opened Options

  type Graph = map<string, set<string>>

  predicate Distinct(ids: seq<string>) {
    forall i, j :: 0 <= i < j < |ids| ==> ids[i] != ids[j]
  }

  /** The ids are exactly the graph's nodes and every dependency is a node. */
  ghost predicate Covers(ids: seq<string>, deps: Graph) {
    && (forall x :: x in ids <==> x in deps)
    && (forall x :: x in deps ==> deps[x] <= deps.Keys)
  }

  // ----- the specification: chains of dependencies ---------------------------------------

  /** Each element depends directly on the one before it. */
  ghost predicate Chain(deps: Graph, p: seq<string>) {
    && |p| > 0
    && (forall i :: 0 <= i < |p| ==> p[i] in deps)
    && (forall i :: 0 < i < |p| ==> p[i - 1] in deps[p[i]])
  }

  ghost predicate EndsChain(deps: Graph, x: string, n: nat) {
    exists p :: Chain(deps, p) && |p| == n && p[n - 1] == x
  }

  ghost predicate Cyclic(deps: Graph) {
    exists p :: IsCycle(deps, p)
  }

  ghost predicate IsCycle(deps: Graph, p: seq<string>) {
    Chain(deps, p) && |p| > 1 && p[0] == p[|p| - 1]
  }

  /** The longest dependency chain ending in `x` has `d` links. */
  ghost predicate Depth(deps: Graph, x: string, d: nat) {
    EndsChain(deps, x, d + 1) && !EndsChain(deps, x, d + 2)
  }

  ghost predicate DeclaredBefore(ids: seq<string>, x: string, y: string) {
    exists a, b :: 0 <= a < b < |ids| && ids[a] == x && ids[b] == y
  }

  ghost predicate Precedes(ids: seq<string>, deps: Graph, x: string, y: string) {
    exists dx: nat, dy: nat :: Depth(deps, x, dx) && Depth(deps, y, dy)
      && (dx < dy || (dx == dy && DeclaredBefore(ids, x, y)))
  }

  /** Every id of the order has a longest chain, of at least `k` links. */
  ghost predicate AtLeast(deps: Graph, order: seq<string>, k: nat) {
    forall x :: x in order ==> exists d: nat :: d >= k && Depth(deps, x, d)
  }

  /** A permutation of the ids, layered by chain length and declaration order. */
  ghost predicate Layered(ids: seq<string>, deps: Graph, order: seq<string>) {
    && Distinct(order)
    && (forall x :: x in order <==> x in ids)
    && AtLeast(deps, order, 0)
    && (forall i, j :: 0 <= i < j < |order| ==> Precedes(ids, deps, order[i], order[j]))
  }

  predicate DependenciesFirst(deps: Graph, order: seq<string>) {
    forall j :: 0 <= j < |order| ==> order[j] in deps && forall d :: d in deps[order[j]] ==> d in order[..j]
  }

  // ----- the algorithm --------------------------------------------------------------------

  function SetOf(s: seq<string>): set<string> {
    set x | x in s
  }

  /** The remaining ids, in declaration order, none of whose dependencies remain. */
  function Ready(ids: seq<string>, deps: Graph, remaining: set<string>): (r: seq<string>)
    requires remaining <= deps.Keys
    ensures forall x :: x in r <==> x in ids && x in remaining && deps[x] * remaining == {}
  {
    if ids == [] then []
    else
      var rest := Ready(ids[..|ids| - 1], deps, remaining);
      var x := ids[|ids| - 1];
      if x in remaining && deps[x] * remaining == {} then rest + [x] else rest
  }

  /** Peel off layers until nothing remains (`Some`) or no id is ready (`None`: a cycle). */
  function Rounds(ids: seq<string>, deps: Graph, remaining: set<string>): Option<seq<string>>
    requires remaining <= deps.Keys
    decreases |remaining|
  {
    if remaining == {} then Some([])
    else
      var ready := Ready(ids, deps, remaining);
      if ready == [] then None
      else
        Shrinks(ready, remaining);
        Prepend(ready, Rounds(ids, deps, remaining - SetOf(ready)))
  }

  function Prepend(front: seq<string>, later: Option<seq<string>>): Option<seq<string>> {
    match later
    case Some(rest) => Some(front + rest)
    case None => None
  }

  lemma PrependJoins(a: seq<string>, b: seq<string>, later: Option<seq<string>>)
    ensures Prepend([], later) == later
    ensures Prepend(a, Prepend(b, later)) == Prepend(a + b, later)
  {
    if later.Some? {
      assert [] + later.value == later.value;
      assert a + (b + later.value) == a + b + later.value;
    }
  }

  lemma Shrinks(ready: seq<string>, remaining: set<string>)
    requires ready != [] && SetOf(ready) <= remaining
    ensures |remaining - SetOf(ready)| < |remaining|
  {
    var x := ready[0];
    assert x in SetOf(ready) && remaining - SetOf(ready) <= remaining - {x};
    SubsetSize(remaining - SetOf(ready), remaining - {x});
  }

  lemma SubsetSize(a: set<string>, b: set<string>)
    requires a <= b
    ensures |a| <= |b|
  {
    assert b == a + (b - a);
  }

  function TopologicalSpec(ids: seq<string>, deps: Graph): Option<seq<string>>
    requires SetOf(ids) <= deps.Keys
  {
    Rounds(ids, deps, SetOf(ids))
  }

  method CollectReady(ids: seq<string>, deps: Graph, remaining: set<string>) returns (ready: seq<string>)
    requires remaining <= deps.Keys
    ensures ready == Ready(ids, deps, remaining)
  {
    ready := [];
    for i := 0 to |ids|
      invariant ready == Ready(ids[..i], deps, remaining)
    {
      assert ids[..i + 1][..i] == ids[..i];
      if ids[i] in remaining && deps[ids[i]] * remaining == {} {
        ready := ready + [ids[i]];
      }
    }
    assert ids[..|ids|] == ids;
  }

  method TopologicalOrder(ids: seq<string>, deps: Graph) returns (result: Option<seq<string>>)
    requires SetOf(ids) <= deps.Keys
    ensures result == TopologicalSpec(ids, deps)
  {
    var order := [];
    var remaining := SetOf(ids);
    ghost var goal := Rounds(ids, deps, remaining);
    PrependJoins([], [], goal);
    while remaining != {}
      invariant remaining <= deps.Keys && goal == Prepend(order, Rounds(ids, deps, remaining))
      decreases |remaining|
    {
      var ready := CollectReady(ids, deps, remaining);
      if ready == [] {
        assert goal == None;
        return None;
      }
      Shrinks(ready, remaining);
      ghost var later := Rounds(ids, deps, remaining - SetOf(ready));
      assert Rounds(ids, deps, remaining) == Prepend(ready, later);
      PrependJoins(order, ready, later);
      order := order + ready;
      remaining := remaining - SetOf(ready);
    }
    assert order + [] == order;
    assert goal == Some(order);
    return Some(order);
  }

  // ----- chains ---------------------------------------------------------------------------

  lemma ExtendChain(deps: Graph, d: string, x: string, n: nat)
    requires EndsChain(deps, d, n) && x in deps && d in deps[x]
    ensures EndsChain(deps, x, n + 1)
  {
    var p :| Chain(deps, p) && |p| == n && p[n - 1] == d;
    var q := p + [x];
    assert Chain(deps, q) && |q| == n + 1 && q[n] == x;
  }

  lemma SingleChain(deps: Graph, x: string)
    requires x in deps
    ensures EndsChain(deps, x, 1)
  {
    assert Chain(deps, [x]);
  }

  /** Cutting a chain: its last link, and its tail. */
  lemma CutChain(deps: Graph, x: string, n: nat) returns (d: string)
    requires n > 0 && EndsChain(deps, x, n + 1)
    ensures x in deps && d in deps[x] && EndsChain(deps, d, n) && EndsChain(deps, x, n)
  {
    var p :| Chain(deps, p) && |p| == n + 1 && p[n] == x;
    d := p[n - 1];
    assert Chain(deps, p[..n]) && p[..n][n - 1] == d;
    assert Chain(deps, p[1..]) && p[1..][n - 1] == x;
  }

  /** On a cycle, chains of every length end at every node. */
  lemma {:induction false} CyclesAreDeep(deps: Graph, p: seq<string>, i: nat, n: nat)
    requires IsCycle(deps, p) && i < |p| && n > 0
    ensures EndsChain(deps, p[i], n)
    decreases n
  {
    if n == 1 {
      SingleChain(deps, p[i]);
    } else {
      var before := if i > 0 then i - 1 else |p| - 2;
      CyclesAreDeep(deps, p, before, n - 1);
      assert p[before] in deps[p[before + 1]];
      ExtendChain(deps, p[before], p[i], n - 1);
    }
  }

  /** When every remaining node depends on a remaining node, chains inside the set grow without bound. */
  lemma {:induction false} StuckChain(deps: Graph, remaining: set<string>, n: nat) returns (p: seq<string>)
    requires n > 0 && remaining != {} && remaining <= deps.Keys
    requires forall x :: x in remaining ==> deps[x] * remaining != {}
    ensures Chain(deps, p) && |p| == n && forall i :: 0 <= i < n ==> p[i] in remaining
  {
    if n == 1 {
      var x :| x in remaining;
      p := [x];
    } else {
      var q := StuckChain(deps, remaining, n - 1);
      var d :| d in deps[q[0]] * remaining;
      p := [d] + q;
    }
  }

  lemma {:induction false} Pigeonhole(p: seq<string>, s: set<string>) returns (i: nat, j: nat)
    requires |p| > |s| && forall k :: 0 <= k < |p| ==> p[k] in s
    ensures i < j < |p| && p[i] == p[j]
    decreases |p|
  {
    var last := p[|p| - 1];
    if k :| 0 <= k < |p| - 1 && p[k] == last {
      i, j := k, |p| - 1;
    } else {
      i, j := Pigeonhole(p[..|p| - 1], s - {last});
    }
  }

  lemma StuckMeansCyclic(deps: Graph, remaining: set<string>)
    requires remaining != {} && remaining <= deps.Keys
    requires forall x :: x in remaining ==> deps[x] * remaining != {}
    ensures Cyclic(deps)
  {
    var p := StuckChain(deps, remaining, |remaining| + 1);
    var i, j := Pigeonhole(p, remaining);
    assert IsCycle(deps, p[i..j + 1]);
  }

  // ----- correctness ----------------------------------------------------------------------

  lemma {:induction false} ReadyInDeclarationOrder(ids: seq<string>, deps: Graph, remaining: set<string>)
    requires remaining <= deps.Keys && Distinct(ids)
    ensures var r := Ready(ids, deps, remaining);
      Distinct(r) && forall i, j :: 0 <= i < j < |r| ==> DeclaredBefore(ids, r[i], r[j])
  {
    if ids != [] {
      var front := ids[..|ids| - 1];
      ReadyInDeclarationOrder(front, deps, remaining);
      var q, r := Ready(front, deps, remaining), Ready(ids, deps, remaining);
      forall i, j | 0 <= i < j < |r| ensures DeclaredBefore(ids, r[i], r[j]) && r[i] != r[j] {
        assert r[i] == q[i];
        if j < |q| {
          assert DeclaredBefore(front, q[i], q[j]);
          var a, b :| 0 <= a < b < |front| && front[a] == q[i] && front[b] == q[j];
          assert ids[a] == r[i] && ids[b] == r[j];
        } else {
          assert q[i] in q;
          var a :| 0 <= a < |front| && front[a] == q[i];
          assert ids[a] == r[i] && ids[|ids| - 1] == r[j];
        }
      }
    }
  }

  /** Exactly the nodes that end a chain of `k + 1` nodes remain after `k` rounds. */
  ghost predicate DeepSet(ids: seq<string>, deps: Graph, remaining: set<string>, k: nat) {
    forall x :: x in remaining <==> x in ids && EndsChain(deps, x, k + 1)
  }

  lemma NextRound(ids: seq<string>, deps: Graph, remaining: set<string>, k: nat)
    requires Covers(ids, deps) && remaining <= deps.Keys && DeepSet(ids, deps, remaining, k)
    ensures DeepSet(ids, deps, remaining - SetOf(Ready(ids, deps, remaining)), k + 1)
    ensures forall x :: x in Ready(ids, deps, remaining) ==> Depth(deps, x, k)
  {
    var ready := Ready(ids, deps, remaining);
    forall x | x in ids ensures x in remaining && x !in ready <==> EndsChain(deps, x, k + 2) {
      if x in remaining && x !in ready {
        var d :| d in deps[x] * remaining;
        ExtendChain(deps, d, x, k + 1);
      }
      if EndsChain(deps, x, k + 2) {
        var d := CutChain(deps, x, k + 1);
        assert d in deps[x] * remaining;
      }
    }
  }

  /** What the rounds from the k-th on produce. */
  ghost predicate Peeled(ids: seq<string>, deps: Graph, remaining: set<string>, k: nat, r: Option<seq<string>>) {
    && (r.Some? <==> !Cyclic(deps))
    && (r.Some? ==>
      && Distinct(r.value)
      && (forall x :: x in r.value <==> x in remaining)
      && AtLeast(deps, r.value, k)
      && (forall i, j :: 0 <= i < j < |r.value| ==> Precedes(ids, deps, r.value[i], r.value[j])))
  }

  lemma CyclesRemain(ids: seq<string>, deps: Graph, remaining: set<string>, k: nat)
    requires Covers(ids, deps) && DeepSet(ids, deps, remaining, k) && Cyclic(deps)
    ensures remaining != {}
  {
    var p :| IsCycle(deps, p);
    CyclesAreDeep(deps, p, 0, k + 1);
    assert p[0] in remaining;
  }

  lemma {:induction false} RoundsCorrect(ids: seq<string>, deps: Graph, remaining: set<string>, k: nat)
    requires Covers(ids, deps) && Distinct(ids) && remaining <= deps.Keys && DeepSet(ids, deps, remaining, k)
    ensures Peeled(ids, deps, remaining, k, Rounds(ids, deps, remaining))
    decreases |remaining|
  {
    if Cyclic(deps) { CyclesRemain(ids, deps, remaining, k); }
    if remaining != {} {
      var ready := Ready(ids, deps, remaining);
      if ready == [] {
        forall x | x in remaining ensures deps[x] * remaining != {} {
          assert x in ids;
        }
        StuckMeansCyclic(deps, remaining);
      } else {
        Shrinks(ready, remaining);
        NextRound(ids, deps, remaining, k);
        RoundsCorrect(ids, deps, remaining - SetOf(ready), k + 1);
        JoinRound(ids, deps, remaining, k, Rounds(ids, deps, remaining - SetOf(ready)));
      }
    }
  }

  lemma JoinRound(ids: seq<string>, deps: Graph, remaining: set<string>, k: nat, later: Option<seq<string>>)
    requires Distinct(ids) && remaining <= deps.Keys
    requires forall x :: x in Ready(ids, deps, remaining) ==> Depth(deps, x, k)
    requires Peeled(ids, deps, remaining - SetOf(Ready(ids, deps, remaining)), k + 1, later)
    ensures Peeled(ids, deps, remaining, k, Prepend(Ready(ids, deps, remaining), later))
  {
    var ready := Ready(ids, deps, remaining);
    ReadyInDeclarationOrder(ids, deps, remaining);
    if later.Some? {
      JoinLayers(ids, deps, ready, later.value, k);
      JoinPermutation(ready, later.value, remaining);
    }
  }

  lemma JoinPermutation(ready: seq<string>, later: seq<string>, remaining: set<string>)
    requires Distinct(ready) && Distinct(later) && SetOf(ready) <= remaining
    requires forall x :: x in later <==> x in remaining - SetOf(ready)
    ensures Distinct(ready + later) && forall x :: x in ready + later <==> x in remaining
  {
    forall i, j | 0 <= i < |ready| && 0 <= j < |later| ensures ready[i] != later[j] {
      assert ready[i] in SetOf(ready) && later[j] in later;
    }
    forall x ensures x in ready + later <==> x in remaining {
      assert x in SetOf(ready) <==> x in ready;
    }
  }

  lemma JoinLayers(ids: seq<string>, deps: Graph, ready: seq<string>, later: seq<string>, k: nat)
    requires forall x :: x in ready ==> Depth(deps, x, k)
    requires forall i, j :: 0 <= i < j < |ready| ==> DeclaredBefore(ids, ready[i], ready[j])
    requires AtLeast(deps, later, k + 1)
    requires forall i, j :: 0 <= i < j < |later| ==> Precedes(ids, deps, later[i], later[j])
    ensures AtLeast(deps, ready + later, k)
    ensures var r := ready + later;
      forall i, j :: 0 <= i < j < |r| ==> Precedes(ids, deps, r[i], r[j])
  {
    var r := ready + later;
    forall i, j | 0 <= i < j < |r| ensures Precedes(ids, deps, r[i], r[j]) {
      if j < |ready| {
        assert Depth(deps, r[i], k) && Depth(deps, r[j], k);
      } else if i < |ready| {
        assert r[j] in later && Depth(deps, r[i], k);
        var d: nat :| d >= k + 1 && Depth(deps, r[j], d);
      } else {
        assert r[i] == later[i - |ready|] && r[j] == later[j - |ready|];
      }
    }
  }

  /** The order exists exactly when the graph has no cycle, and it is layered: sorted by longest dependency
      chain, ties in declaration order. */
  lemma TopologicalOrderIsLayered(ids: seq<string>, deps: Graph)
    requires Covers(ids, deps) && Distinct(ids)
    ensures SetOf(ids) <= deps.Keys
    ensures TopologicalSpec(ids, deps).Some? <==> !Cyclic(deps)
    ensures TopologicalSpec(ids, deps).Some? ==> Layered(ids, deps, TopologicalSpec(ids, deps).value)
  {
    forall x | x in ids ensures EndsChain(deps, x, 1) {
      SingleChain(deps, x);
    }
    RoundsCorrect(ids, deps, SetOf(ids), 0);
  }

  /** The depth of a dependency is smaller. */
  lemma {:induction false} DepthGrows(deps: Graph, d: string, x: string, n: nat, m: nat)
    requires x in deps && d in deps[x] && Depth(deps, x, n) && EndsChain(deps, d, m + 1)
    ensures m < n
    decreases m
  {
    if m > n {
      var _ := CutChain(deps, d, m);
      DepthGrows(deps, d, x, n, m - 1);
    } else if m == n {
      ExtendChain(deps, d, x, m + 1);
    }
  }

  /** A layered order is topological: every dependency comes before its dependents. */
  lemma LayeredPutsDependenciesFirst(ids: seq<string>, deps: Graph, order: seq<string>)
    requires Covers(ids, deps) && Layered(ids, deps, order)
    ensures DependenciesFirst(deps, order)
  {
    forall j, d | 0 <= j < |order| && d in deps[order[j]] ensures d in order[..j] {
      assert order[j] in order && d in deps && d in order;
      var i :| 0 <= i < |order| && order[i] == d;
      if i == j {
        var n: nat :| Depth(deps, d, n);
        DepthGrows(deps, d, d, n, n);
      } else if j < i {
        assert Precedes(ids, deps, order[j], order[i]);
        var dx: nat, dy: nat :| Depth(deps, order[j], dx) && Depth(deps, order[i], dy) && dx <= dy;
        DepthGrows(deps, d, order[j], dx, dy);
      }
      assert order[i] in order[..j];
    }
  }

  // ----- the order is determined ----------------------------------------------------------

  lemma {:induction false} ShorterChain(deps: Graph, x: string, n: nat, m: nat)
    requires 0 < m <= n && EndsChain(deps, x, n)
    ensures EndsChain(deps, x, m)
    decreases n
  {
    if m < n {
      var _ := CutChain(deps, x, n - 1);
      ShorterChain(deps, x, n - 1, m);
    }
  }

  lemma DepthIsUnique(deps: Graph, x: string, d: nat, e: nat)
    requires Depth(deps, x, d) && Depth(deps, x, e)
    ensures d == e
  {
    if d < e { ShorterChain(deps, x, e + 1, d + 2); }
    if e < d { ShorterChain(deps, x, d + 1, e + 2); }
  }

  lemma PrecedesOneWay(ids: seq<string>, deps: Graph, x: string, y: string)
    requires Distinct(ids) && Precedes(ids, deps, x, y)
    ensures x != y ==> !Precedes(ids, deps, y, x)
  {
    if x != y && Precedes(ids, deps, y, x) {
      var dx: nat, dy: nat :| Depth(deps, x, dx) && Depth(deps, y, dy)
        && (dx < dy || (dx == dy && DeclaredBefore(ids, x, y)));
      var ey: nat, ex: nat :| Depth(deps, y, ey) && Depth(deps, x, ex)
        && (ey < ex || (ey == ex && DeclaredBefore(ids, y, x)));
      DepthIsUnique(deps, x, dx, ex);
      DepthIsUnique(deps, y, dy, ey);
    }
  }

  /** Where two layered orders first differ, each puts its own id before the other's. */
  lemma FirstDifference(ids: seq<string>, deps: Graph, a: seq<string>, b: seq<string>, m: nat)
    requires Layered(ids, deps, a) && Layered(ids, deps, b) && m < |a| && m < |b|
    requires a[..m] == b[..m] && a[m] != b[m]
    ensures Precedes(ids, deps, a[m], b[m])
  {
    hide Precedes;
    forall j | 0 <= j < m ensures a[j] != b[m] {
      assert a[..m][j] == b[..m][j];
    }
    assert b[m] in b && b[m] in a;
    var i :| 0 <= i < |a| && a[i] == b[m];
  }

  lemma {:induction false} SameSoFar(ids: seq<string>, deps: Graph, a: seq<string>, b: seq<string>, k: nat)
    requires Distinct(ids) && Layered(ids, deps, a) && Layered(ids, deps, b) && k <= |a| && k <= |b|
    ensures a[..k] == b[..k]
  {
    hide Layered, Precedes, Distinct;
    if k > 0 {
      SameSoFar(ids, deps, a, b, k - 1);
      if a[k - 1] != b[k - 1] {
        FirstDifference(ids, deps, a, b, k - 1);
        FirstDifference(ids, deps, b, a, k - 1);
        PrecedesOneWay(ids, deps, a[k - 1], b[k - 1]);
      }
      assert a[..k] == a[..k - 1] + [a[k - 1]] && b[..k] == b[..k - 1] + [b[k - 1]];
    }
  }

  lemma {:induction false} DistinctSize(a: seq<string>)
    requires Distinct(a)
    ensures |SetOf(a)| == |a|
  {
    if a != [] {
      var front, last := a[..|a| - 1], a[|a| - 1];
      DistinctSize(front);
      assert a == front + [last];
      assert SetOf(a) == SetOf(front) + {last};
    }
  }

  /** There is only one layered order: the result is determined by chain length and declaration order alone. */
  lemma LayeredOrderIsUnique(ids: seq<string>, deps: Graph, a: seq<string>, b: seq<string>)
    requires Distinct(ids) && Layered(ids, deps, a) && Layered(ids, deps, b)
    ensures a == b
  {
    hide Precedes, AtLeast;
    DistinctSize(a);
    DistinctSize(b);
    assert SetOf(a) == SetOf(b);
    SameSoFar(ids, deps, a, b, |a|);
    assert a[..|a|] == a && b[..|b|] == b;
  }
}
