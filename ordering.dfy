/**
 * The order in which the batch walk visits names: Python's `sorted` over the
 * paths of one directory. Paths that share a parent compare by their last
 * component, and Python compares `str` values code point by code point, a
 * proper prefix coming first.
 */
module Ordering {

  /** Python's `a < b` on `str`. */
  predicate Below(a: string, b: string)
    decreases |a|
  {
    if |a| == 0 then |b| > 0
    else if |b| == 0 then false
    else if a[0] != b[0] then a[0] < b[0]
    else Below(a[1..], b[1..])
  }

  lemma {:induction false} BelowIrreflexive(a: string)
    ensures !Below(a, a)
    decreases |a|
  {
    if |a| > 0 {
      BelowIrreflexive(a[1..]);
    }
  }

  lemma {:induction false} BelowAsymmetric(a: string, b: string)
    requires Below(a, b)
    ensures !Below(b, a)
    decreases |a|
  {
    if |a| > 0 && |b| > 0 && a[0] == b[0] {
      BelowAsymmetric(a[1..], b[1..]);
    }
  }

  lemma {:induction false} BelowTransitive(a: string, b: string, c: string)
    requires Below(a, b) && Below(b, c)
    ensures Below(a, c)
    decreases |a|
  {
    if |a| > 0 && a[0] == b[0] && b[0] == c[0] {
      BelowTransitive(a[1..], b[1..], c[1..]);
    }
  }

  /** Two different names are always ordered one way or the other. */
  lemma {:induction false} BelowTotal(a: string, b: string)
    requires a != b
    ensures Below(a, b) || Below(b, a)
    decreases |a|
  {
    if |a| > 0 && |b| > 0 && a[0] == b[0] {
      assert a == [a[0]] + a[1..] && b == [b[0]] + b[1..];
      BelowTotal(a[1..], b[1..]);
    }
  }

  predicate StrictlySorted(s: seq<string>) {
    forall i, j :: 0 <= i < j < |s| ==> Below(s[i], s[j])
  }

  /** `m` is the name of `s` that `sorted` puts first. */
  predicate IsLeast(m: string, s: set<string>) {
    m in s && forall y :: y in s && y != m ==> Below(m, y)
  }

  lemma {:induction false} LeastExists(s: set<string>)
    requires s != {}
    ensures exists m :: IsLeast(m, s)
    decreases |s|
  {
    var x :| x in s;
    var rest := s - {x};
    if rest == {} {
      assert s == {x};
      assert IsLeast(x, s);
    } else {
      LeastExists(rest);
      var m :| IsLeast(m, rest);
      BelowTotal(x, m);
      if Below(x, m) {
        forall y | y in s && y != x
          ensures Below(x, y)
        {
          if y != m {
            BelowTransitive(x, m, y);
          }
        }
        assert IsLeast(x, s);
      } else {
        assert IsLeast(m, s);
      }
    }
  }

  lemma LeastUnique(m: string, m': string, s: set<string>)
    requires IsLeast(m, s) && IsLeast(m', s)
    ensures m == m'
  {
    if m != m' {
      BelowAsymmetric(m, m');
    }
  }

  /** `sorted(names)`: every name of `s` once, in ascending order. */
  ghost function SortedSeq(s: set<string>): (r: seq<string>)
    ensures StrictlySorted(r)
    ensures |r| == |s|
    ensures forall x :: x in r <==> x in s
    decreases |s|
  {
    if s == {} then []
    else
      LeastExists(s);
      var m :| IsLeast(m, s);
      var tail := SortedSeq(s - {m});
      assert forall j :: 0 <= j < |tail| ==> Below(m, tail[j]) by {
        forall j | 0 <= j < |tail|
          ensures Below(m, tail[j])
        {
          assert tail[j] in s - {m};
        }
      }
      [m] + tail
  }

  /** Whatever least element is taken first, the rest is the sorted remainder. */
  lemma LeastIsHead(s: set<string>, m: string)
    requires IsLeast(m, s)
    ensures SortedSeq(s) == [m] + SortedSeq(s - {m})
  {
    var r := SortedSeq(s);
    assert r[0] in s;
    assert IsLeast(r[0], s) by {
      forall y | y in s && y != r[0]
        ensures Below(r[0], y)
      {
        var j :| 0 <= j < |r| && r[j] == y;
      }
    }
    LeastUnique(m, r[0], s);
  }

  /** Computes `sorted(s)` by taking the least remaining name until none is left. */
  method SortNames(s: set<string>) returns (r: seq<string>)
    ensures r == SortedSeq(s)
  {
    r := [];
    var rest := s;
    while rest != {}
      invariant r + SortedSeq(rest) == SortedSeq(s)
      decreases |rest|
    {
      var m := PickLeast(rest);
      SortedStep(r, rest, m);
      r, rest := r + [m], rest - {m};
    }
    assert SortedSeq(rest) == [];
  }

  method PickLeast(s: set<string>) returns (m: string)
    requires s != {}
    ensures IsLeast(m, s)
  {
    LeastExists(s);
    m :| IsLeast(m, s);
  }

  lemma SortedStep(r: seq<string>, rest: set<string>, m: string)
    requires IsLeast(m, rest)
    ensures (r + [m]) + SortedSeq(rest - {m}) == r + SortedSeq(rest)
  {
    LeastIsHead(rest, m);
  }
}
