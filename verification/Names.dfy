/** Robot and task names, ordered as strings are. */
module Names {

  /** Lexicographic order. */
  predicate Before(a: string, b: string)
    decreases |a|
  {
    b != "" && (a == "" || a[0] < b[0] || (a[0] == b[0] && Before(a[1..], b[1..])))
  }

  lemma {:induction false} BeforeIsStrict(a: string, b: string)
    ensures !(Before(a, b) && Before(b, a))
    ensures a != b ==> Before(a, b) || Before(b, a)
    decreases |a|
  {
    if a != "" && b != "" && a[0] == b[0] {
      BeforeIsStrict(a[1..], b[1..]);
      assert a == [a[0]] + a[1..] && b == [b[0]] + b[1..];
    }
  }

  lemma {:induction false} BeforeIsTransitive(a: string, b: string, c: string)
    requires Before(a, b) && Before(b, c)
    ensures Before(a, c)
    decreases |a|
  {
    if a != "" && a[0] == b[0] == c[0] {
      BeforeIsTransitive(a[1..], b[1..], c[1..]);
    }
  }

  lemma NotAfter(a: string, b: string, c: string)
    requires !Before(b, a) && !Before(c, b)
    ensures !Before(c, a) && (a == c ==> a == b)
  {
    BeforeIsStrict(a, b);
    BeforeIsStrict(b, c);
    BeforeIsStrict(a, c);
    if a != b && b != c {
      BeforeIsTransitive(a, b, c);
    }
  }

  /** Up to `k` the names agree; there the first one ends, or has the lesser letter. */
  ghost predicate DecidedAt(a: string, b: string, k: nat) {
    && k <= |a| && k < |b| && a[..k] == b[..k]
    && (k == |a| || a[k] < b[k])
  }

  lemma {:induction false} BeforeIsDictionaryOrder(a: string, b: string)
    ensures Before(a, b) <==> exists k: nat :: DecidedAt(a, b, k)
    decreases |a|
  {
    if a != "" && b != "" && a[0] == b[0] {
      BeforeIsDictionaryOrder(a[1..], b[1..]);
      assert a == [a[0]] + a[1..] && b == [b[0]] + b[1..];
      forall k: nat
        ensures DecidedAt(a[1..], b[1..], k) <==> DecidedAt(a, b, k + 1)
      {
        if k <= |a[1..]| && k <= |b[1..]| {
          assert a[..k + 1] == [a[0]] + a[1..][..k] && b[..k + 1] == [b[0]] + b[1..][..k];
        }
      }
      if Before(a, b) {
        var j: nat :| DecidedAt(a[1..], b[1..], j);
        assert DecidedAt(a, b, j + 1);
      }
      if k: nat :| DecidedAt(a, b, k) {
        assert k > 0 && DecidedAt(a[1..], b[1..], k - 1);
      }
    } else if Before(a, b) {
      assert DecidedAt(a, b, 0);
    } else {
      forall k: nat
        ensures !DecidedAt(a, b, k)
      {
        if 0 < k <= |a| && k < |b| {
          assert a[..k][0] == a[0] && b[..k][0] == b[0];
        }
      }
    }
  }

  ghost predicate IsFirst(ids: set<string>, m: string) {
    m in ids && forall x | x in ids && x != m :: Before(m, x)
  }

  lemma {:induction false} FirstExists(ids: set<string>) returns (m: string)
    requires ids != {}
    ensures IsFirst(ids, m)
    decreases |ids|
  {
    var x :| x in ids;
    var rest := ids - {x};
    assert ids == rest + {x};
    if rest == {} {
      m := x;
    } else {
      var y := FirstExists(rest);
      BeforeIsStrict(x, y);
      if Before(x, y) {
        m := x;
        forall z | z in ids && z != x
          ensures Before(x, z)
        {
          if z != y {
            BeforeIsTransitive(x, y, z);
          }
        }
      } else {
        m := y;
      }
    }
  }

  lemma FirstIsUnique(ids: set<string>, a: string, b: string)
    requires IsFirst(ids, a) && IsFirst(ids, b)
    ensures a == b
  {
    BeforeIsStrict(a, b);
  }

  function First(ids: set<string>): (m: string)
    requires ids != {}
    ensures IsFirst(ids, m)
  {
    assert exists x :: IsFirst(ids, x) by { var _ := FirstExists(ids); }
    assert forall a, b | IsFirst(ids, a) && IsFirst(ids, b) :: a == b by {
      forall a, b | IsFirst(ids, a) && IsFirst(ids, b)
        ensures a == b
      {
        FirstIsUnique(ids, a, b);
      }
    }
    assert forall a, b | (a in ids && forall x | x in ids && x != a :: Before(a, x))
        && (b in ids && forall x | x in ids && x != b :: Before(b, x)) ::
      IsFirst(ids, a) && IsFirst(ids, b);
    var m :| m in ids && forall x | x in ids && x != m :: Before(m, x);
    m
  }

  predicate Distinct<T(==)>(s: seq<T>) {
    forall i, j | 0 <= i < j < |s| :: s[i] != s[j]
  }

  /** The names in order, each once. */
  function Sorted(ids: set<string>): (s: seq<string>)
    ensures Distinct(s) && |s| == |ids|
    ensures forall x :: x in s <==> x in ids
    ensures forall i, j | 0 <= i < j < |s| :: Before(s[i], s[j])
  {
    if ids == {} then []
    else
      var m := First(ids);
      [m] + Sorted(ids - {m})
  }
}
