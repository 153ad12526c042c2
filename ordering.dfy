/**
 * `sorted(set_of_values)` over a strict total order: the sorted list of the
 * distinct values, which is the only strictly increasing list holding exactly
 * those values.
 */
module Ordering {

  ghost predicate StrictTotalOrder<T(!new)>(less: (T, T) -> bool) {
    && (forall x :: !less(x, x))
    && (forall x, y, z :: less(x, y) && less(y, z) ==> less(x, z))
    && (forall x, y :: x != y ==> less(x, y) || less(y, x))
  }

  ghost predicate StrictlySorted<T>(s: seq<T>, less: (T, T) -> bool) {
    forall i, j :: 0 <= i < j < |s| ==> less(s[i], s[j])
  }

  /** Inserts `x` into a strictly sorted list, keeping it strictly sorted; a value already there is not repeated. */
  function Insert<T(!new,==)>(x: T, s: seq<T>, less: (T, T) -> bool): (r: seq<T>)
    requires StrictTotalOrder(less) && StrictlySorted(s, less)
    ensures StrictlySorted(r, less)
    ensures forall y :: y in r <==> y == x || y in s
  {
    if s == [] then [x]
    else if x == s[0] then s
    else if less(x, s[0]) then
      assert forall j :: 0 < j < |s| ==> less(x, s[j]);
      [x] + s
    else
      var t := Insert(x, s[1..], less);
      assert less(s[0], x);
      assert forall y :: y in t ==> less(s[0], y) by {
        forall y | y in t ensures less(s[0], y) {
          if y != x {
            var k :| 0 <= k < |s[1..]| && s[1..][k] == y;
            assert s[k + 1] == y;
          }
        }
      }
      assert forall j :: 0 < j < |[s[0]] + t| ==> ([s[0]] + t)[j] in t;
      [s[0]] + t
  }

  /** `sorted(values.unique())`: the distinct values in increasing order. */
  function SortedDistinct<T(!new,==)>(xs: seq<T>, less: (T, T) -> bool): (r: seq<T>)
    requires StrictTotalOrder(less)
    ensures StrictlySorted(r, less)
    ensures forall y :: y in r <==> y in xs
  {
    if xs == [] then [] else Insert(xs[0], SortedDistinct(xs[1..], less), less)
  }

  /** A strictly sorted list has no repeated value. */
  lemma {:induction false} SortedHasNoDuplicates<T(!new)>(s: seq<T>, less: (T, T) -> bool, i: nat, j: nat)
    requires StrictTotalOrder(less) && StrictlySorted(s, less)
    requires i < |s| && j < |s| && i != j
    ensures s[i] != s[j]
  {
    if i < j { assert less(s[i], s[j]); } else { assert less(s[j], s[i]); }
  }

  /** The first element of a strictly sorted list is below every other element. */
  lemma {:induction false} FirstIsLeast<T(!new)>(s: seq<T>, less: (T, T) -> bool, y: T)
    requires StrictTotalOrder(less) && StrictlySorted(s, less)
    requires y in s && y != s[0]
    ensures less(s[0], y)
  {
    var k :| 0 <= k < |s| && s[k] == y;
    assert k != 0;
  }

  /** Two strictly sorted lists with the same values are the same list. */
  lemma {:induction false} SortedIsUnique<T(!new)>(a: seq<T>, b: seq<T>, less: (T, T) -> bool)
    requires StrictTotalOrder(less)
    requires StrictlySorted(a, less) && StrictlySorted(b, less)
    requires forall y :: y in a <==> y in b
    ensures a == b
  {
    assert a == [] <==> b == [] by {
      if a != [] { assert a[0] in a; }
      if b != [] { assert b[0] in b; }
    }
    if a != [] {
      if a[0] != b[0] {
        FirstIsLeast(a, less, b[0]);
        FirstIsLeast(b, less, a[0]);
        assert false;
      }
      forall y ensures y in a[1..] <==> y in b[1..] {
        if y in a[1..] {
          var k :| 0 <= k < |a[1..]| && a[1..][k] == y;
          SortedHasNoDuplicates(a, less, 0, k + 1);
          assert y in b;
        }
        if y in b[1..] {
          var k :| 0 <= k < |b[1..]| && b[1..][k] == y;
          SortedHasNoDuplicates(b, less, 0, k + 1);
          assert y in a;
        }
      }
      SortedIsUnique(a[1..], b[1..], less);
      assert a == [a[0]] + a[1..];
      assert b == [b[0]] + b[1..];
    }
  }
}
