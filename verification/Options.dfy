/** Optional values, and the total order on strings that `sorted` uses. */
module Options {
  datatype Option<+T> = None | Some(value: T)
}

module Ordering {
  /** Python's order on strings: the first differing code point decides, a prefix comes first. */
  predicate StringLe(a: string, b: string) {
    if a == [] then true
    else if b == [] then false
    else if a[0] != b[0] then a[0] < b[0]
    else StringLe(a[1..], b[1..])
  }

  /** The texts agree up to `n`, and there the first ends or has the smaller code point. */
  predicate DecidedAt(a: string, b: string, n: nat) {
    && n <= |a| && n <= |b| && a[..n] == b[..n]
    && (n == |a| || (n < |b| && a[n] < b[n]))
  }

  /** One text is at most another exactly when it is a prefix of it or has the smaller code point at the first
      difference. */
  lemma {:induction false} StringLeMeans(a: string, b: string)
    ensures StringLe(a, b) <==> exists n :: DecidedAt(a, b, n)
  {
    if a == [] {
      assert DecidedAt(a, b, 0);
    } else if b != [] {
      if a[0] == b[0] {
        StringLeMeans(a[1..], b[1..]);
        if m: nat :| DecidedAt(a[1..], b[1..], m) {
          assert a[..m + 1] == [a[0]] + a[1..][..m] && b[..m + 1] == [b[0]] + b[1..][..m];
          assert DecidedAt(a, b, m + 1);
        }
        if n: nat :| DecidedAt(a, b, n) {
          OneFurther(a, b, n);
        }
      } else if a[0] < b[0] {
        assert DecidedAt(a, b, 0);
      } else {
        forall n: nat ensures !DecidedAt(a, b, n) {
          if n > 0 && n <= |a| && n <= |b| { assert a[..n][0] == a[0] && b[..n][0] == b[0]; }
        }
      }
    }
  }

  lemma OneFurther(a: string, b: string, n: nat)
    requires a != [] && b != [] && a[0] == b[0] && DecidedAt(a, b, n)
    ensures n > 0 && DecidedAt(a[1..], b[1..], n - 1)
  {
    assert a[1..][..n - 1] == a[..n][1..] && b[1..][..n - 1] == b[..n][1..];
  }

  lemma {:induction false} StringLeTotal(a: string, b: string)
    ensures StringLe(a, b) || StringLe(b, a)
  {
    if a != [] && b != [] && a[0] == b[0] {
      StringLeTotal(a[1..], b[1..]);
    }
  }

  lemma {:induction false} StringLeAntisymmetric(a: string, b: string)
    requires StringLe(a, b) && StringLe(b, a)
    ensures a == b
  {
    if a != [] && b != [] {
      StringLeAntisymmetric(a[1..], b[1..]);
      assert a == [a[0]] + a[1..] && b == [b[0]] + b[1..];
    }
  }

  lemma {:induction false} StringLeTransitive(a: string, b: string, c: string)
    requires StringLe(a, b) && StringLe(b, c)
    ensures StringLe(a, c)
  {
    if a != [] && a[0] == b[0] && b[0] == c[0] {
      StringLeTransitive(a[1..], b[1..], c[1..]);
    }
  }

  predicate IsLeast(k: string, s: set<string>) {
    k in s && forall k' :: k' in s ==> StringLe(k, k')
  }

  lemma {:induction false} LeastExists(s: set<string>) returns (k: string)
    requires s != {}
    ensures IsLeast(k, s)
  {
    k :| k in s;
    StringLeTotal(k, k);
    if s != {k} {
      var least := LeastExists(s - {k});
      StringLeTotal(k, least);
      if StringLe(k, least) {
        forall k' | k' in s - {k} ensures StringLe(k, k') {
          StringLeTransitive(k, least, k');
        }
      } else {
        k := least;
      }
    }
  }

  /** The least member of a non-empty set of strings. */
  function Least(s: set<string>): (k: string)
    requires s != {}
    ensures IsLeast(k, s)
  {
    assert exists k :: IsLeast(k, s) by {
      var k := LeastExists(s);
    }
    LeastUnique(s);
    var k :| IsLeast(k, s);
    k
  }

  lemma LeastUnique(s: set<string>)
    ensures forall k, l :: IsLeast(k, s) && IsLeast(l, s) ==> k == l
  {
    forall k, l | IsLeast(k, s) && IsLeast(l, s) ensures k == l {
      StringLeAntisymmetric(k, l);
    }
  }

  /** `sorted(s)`: every member once, in ascending order. */
  function SortedKeys(s: set<string>): (r: seq<string>)
    ensures forall k :: k in r <==> k in s
    ensures forall i, j :: 0 <= i < j < |r| ==> StringLe(r[i], r[j]) && r[i] != r[j]
  {
    if s == {} then [] else
    var k := Least(s);
    [k] + SortedKeys(s - {k})
  }
}
