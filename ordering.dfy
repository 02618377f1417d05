/** Orders and sorted enumerations: what Python's `sorted` produces from a set,
    a dict's keys or a list of distinct tuples. */
module Ordering {

  /** Python's `<` on `str`: code point by code point, a proper prefix first. */
  predicate LexLt(a: string, b: string)
    decreases |a|
  {
    if b == [] then false
    else if a == [] then true
    else if a[0] != b[0] then a[0] < b[0]
    else LexLt(a[1..], b[1..])
  }

  lemma {:induction false} LexIrreflexive(a: string)
    ensures !LexLt(a, a)
    decreases |a|
  {
    if a != [] { LexIrreflexive(a[1..]); }
  }

  lemma {:induction false} LexTransitive(a: string, b: string, c: string)
    requires LexLt(a, b) && LexLt(b, c)
    ensures LexLt(a, c)
    decreases |a|
  {
    if a != [] && a[0] == b[0] && b[0] == c[0] {
      LexTransitive(a[1..], b[1..], c[1..]);
    }
  }

  lemma {:induction false} LexTotal(a: string, b: string)
    requires a != b
    ensures LexLt(a, b) || LexLt(b, a)
    decreases |a|
  {
    if a != [] && b != [] && a[0] == b[0] {
      assert a == [a[0]] + a[1..] && b == [b[0]] + b[1..];
      LexTotal(a[1..], b[1..]);
    }
  }

  /** `lt` is irreflexive, transitive and relates any two distinct values. */
  ghost predicate StrictTotalOrder<T(!new)>(lt: (T, T) -> bool) {
    (forall a :: !lt(a, a)) &&
    (forall a, b, c :: lt(a, b) && lt(b, c) ==> lt(a, c)) &&
    (forall a, b :: a != b ==> lt(a, b) || lt(b, a))
  }

  lemma LexIsStrictTotalOrder()
    ensures StrictTotalOrder(LexLt)
  {
    forall a ensures !LexLt(a, a) { LexIrreflexive(a); }
    forall a, b, c | LexLt(a, b) && LexLt(b, c) ensures LexLt(a, c) { LexTransitive(a, b, c); }
    forall a, b | a != b ensures LexLt(a, b) || LexLt(b, a) { LexTotal(a, b); }
  }

  ghost predicate SortedBy<T>(s: seq<T>, lt: (T, T) -> bool) {
    forall i, j :: 0 <= i < j < |s| ==> lt(s[i], s[j])
  }

  predicate IsLeast<T>(m: T, s: set<T>, lt: (T, T) -> bool) {
    m in s && forall x :: x in s && x != m ==> lt(m, x)
  }

  lemma {:induction false} LeastExists<T(!new)>(s: set<T>, lt: (T, T) -> bool)
    requires StrictTotalOrder(lt) && s != {}
    ensures exists m :: IsLeast(m, s, lt)
    decreases |s|
  {
    var x :| x in s;
    if s - {x} == {} {
      assert s == {x};
      assert IsLeast(x, s, lt);
    } else {
      LeastExists(s - {x}, lt);
      var m :| IsLeast(m, s - {x}, lt);
      if lt(x, m) {
        forall y | y in s && y != x ensures lt(x, y) {
          if y != m { assert lt(m, y); }
        }
        assert IsLeast(x, s, lt);
      } else {
        assert IsLeast(m, s, lt);
      }
    }
  }

  /** A strict total order has at most one least element in a set. */
  lemma LeastUnique<T(!new)>(m1: T, m2: T, s: set<T>, lt: (T, T) -> bool)
    requires StrictTotalOrder(lt) && IsLeast(m1, s, lt) && IsLeast(m2, s, lt)
    ensures m1 == m2
  {
    assert m1 != m2 ==> lt(m1, m2) && lt(m2, m1);
    assert lt(m1, m2) && lt(m2, m1) ==> lt(m1, m1);
  }

  /** The elements of `s` in increasing order: `sorted(s)` for a finite set. */
  function Enumerate<T(!new)>(s: set<T>, lt: (T, T) -> bool): (r: seq<T>)
    requires StrictTotalOrder(lt)
    ensures |r| == |s| && SortedBy(r, lt)
    ensures forall x :: x in r <==> x in s
    decreases |s|
  {
    if s == {} then []
    else
      LeastExists(s, lt);
      assert forall m1, m2 :: IsLeast(m1, s, lt) && IsLeast(m2, s, lt) ==> m1 == m2 by {
        forall m1, m2 | IsLeast(m1, s, lt) && IsLeast(m2, s, lt) ensures m1 == m2 {
          LeastUnique(m1, m2, s, lt);
        }
      }
      var m :| IsLeast(m, s, lt);
      var rest := Enumerate(s - {m}, lt);
      assert forall j :: 0 <= j < |rest| ==> rest[j] in s - {m};
      [m] + rest
  }

  /** Past the head, a strictly sorted sequence holds exactly its other elements. */
  lemma {:induction false} SortedTail<T(!new)>(s: seq<T>, lt: (T, T) -> bool)
    requires StrictTotalOrder(lt) && SortedBy(s, lt) && |s| > 0
    ensures forall x :: x in s[1..] <==> x in s && x != s[0]
    ensures forall x :: x in s && x != s[0] ==> lt(s[0], x)
  {
    forall x | x in s[1..] ensures x in s && x != s[0] {
      var j :| 0 <= j < |s| - 1 && s[1..][j] == x;
      assert lt(s[0], s[j + 1]);
    }
    forall x | x in s && x != s[0] ensures x in s[1..] && lt(s[0], x) {
      var i :| 0 <= i < |s| && s[i] == x;
      assert s[1..][i - 1] == x;
    }
  }

  /** Dropping the head keeps a sequence sorted. */
  lemma SortedDrop<T>(s: seq<T>, lt: (T, T) -> bool)
    requires SortedBy(s, lt) && |s| > 0
    ensures SortedBy(s[1..], lt)
  {
    forall i, j | 0 <= i < j < |s| - 1 ensures lt(s[1..][i], s[1..][j]) {
      assert s[1..][i] == s[i + 1] && s[1..][j] == s[j + 1];
    }
  }

  /** A strictly sorted sequence has no repeats, so it is as long as its set of elements. */
  lemma {:induction false} SortedCard<T(!new)>(s: seq<T>, lt: (T, T) -> bool)
    requires StrictTotalOrder(lt) && SortedBy(s, lt)
    ensures |set x | x in s| == |s|
    decreases |s|
  {
    if s != [] {
      SortedTail(s, lt);
      SortedCard(s[1..], lt);
      assert (set x | x in s) == {s[0]} + (set x | x in s[1..]);
    }
  }

  /** A strictly sorted sequence is determined by its elements. */
  lemma {:induction false} SortedUnique<T(!new)>(a: seq<T>, b: seq<T>, lt: (T, T) -> bool)
    requires StrictTotalOrder(lt) && SortedBy(a, lt) && SortedBy(b, lt)
    requires forall x :: x in a <==> x in b
    ensures a == b
    decreases |a|
  {
    SortedCard(a, lt);
    SortedCard(b, lt);
    assert (set x | x in a) == (set x | x in b);
    if |a| > 0 {
      SortedTail(a, lt);
      SortedTail(b, lt);
      LeastUnique(a[0], b[0], (set x | x in a), lt);
      SortedUnique(a[1..], b[1..], lt);
      assert a == [a[0]] + a[1..] && b == [b[0]] + b[1..];
    }
  }

  /** Two sorted runs, every element of the first below every element of the
      second, make a sorted run. */
  lemma SortedAppend<T>(a: seq<T>, b: seq<T>, lt: (T, T) -> bool)
    requires SortedBy(a, lt) && SortedBy(b, lt)
    requires forall x, y :: x in a && y in b ==> lt(x, y)
    ensures SortedBy(a + b, lt)
  {
    var c := a + b;
    forall i, j | 0 <= i < j < |c| ensures lt(c[i], c[j]) {
      if j < |a| {
        assert c[i] == a[i] && c[j] == a[j];
      } else if i >= |a| {
        assert c[i] == b[i - |a|] && c[j] == b[j - |a|];
      } else {
        assert c[i] == a[i] && c[j] == b[j - |a|];
      }
    }
  }

  /** Keeps the elements of `s` that satisfy `p`, in their order. */
  function Keep<T(!new)>(s: seq<T>, p: T -> bool): (r: seq<T>)
    ensures forall x :: x in r <==> x in s && p(x)
  {
    if s == [] then []
    else
      var rest := Keep(s[1..], p);
      assert forall x :: x in s <==> x == s[0] || x in s[1..];
      if p(s[0]) then [s[0]] + rest else rest
  }

  lemma {:induction false} KeepSorted<T(!new)>(s: seq<T>, p: T -> bool, lt: (T, T) -> bool)
    requires SortedBy(s, lt)
    ensures SortedBy(Keep(s, p), lt)
  {
    if s != [] {
      KeepSorted(s[1..], p, lt);
      var rest := Keep(s[1..], p);
      assert forall x :: x in rest ==> lt(s[0], x) by {
        forall x | x in rest ensures lt(s[0], x) {
          var j :| 0 <= j < |s[1..]| && s[1..][j] == x;
          assert s[j + 1] == x;
        }
      }
    }
  }

  /** Python's `sorted` applied to a set, by repeated selection of the least element. */
  method SortSet<T(!new)>(s: set<T>, lt: (T, T) -> bool) returns (r: seq<T>)
    requires StrictTotalOrder(lt)
    ensures r == Enumerate(s, lt)
  {
    r := [];
    var rest := s;
    while rest != {}
      invariant rest <= s
      invariant SortedBy(r, lt)
      invariant forall x :: x in r <==> x in s && x !in rest
      invariant forall x, y :: x in r && y in rest ==> lt(x, y)
      decreases |rest|
    {
      LeastExists(rest, lt);
      var m :| IsLeast(m, rest, lt);
      r := r + [m];
      rest := rest - {m};
    }
    SortedUnique(r, Enumerate(s, lt), lt);
  }
}
