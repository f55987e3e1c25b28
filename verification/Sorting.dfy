/** Stable sorting by a `less` function, the specification of Go's `sort.Slice` and
    `sort.SliceStable`. */
module Sorting {

  /** `less` is a strict weak order: what Go asks of a comparison. */
  ghost predicate IsWeakOrder<T(!new)>(less: (T, T) -> bool) {
    && (forall a, b :: less(a, b) ==> !less(b, a))
    && (forall a, b, c :: !less(b, a) && !less(c, b) ==> !less(c, a))
  }

  ghost predicate Sorted<T>(less: (T, T) -> bool, s: seq<T>) {
    forall i, j :: 0 <= i < j < |s| ==> !less(s[j], s[i])
  }

  /** Elements of `s` that `less` does not separate are equal. */
  ghost predicate Separates<T>(less: (T, T) -> bool, s: seq<T>) {
    forall a, b :: a in s && b in s && a != b ==> less(a, b) || less(b, a)
  }

  function Insert<T>(less: (T, T) -> bool, x: T, s: seq<T>): (r: seq<T>)
    ensures multiset(r) == multiset{x} + multiset(s)
    ensures |r| == |s| + 1
  {
    if s == [] || !less(s[0], x) then
      [x] + s
    else
      assert s == [s[0]] + s[1..];
      [s[0]] + Insert(less, x, s[1..])
  }

  function Sort<T>(less: (T, T) -> bool, s: seq<T>): (r: seq<T>)
    ensures multiset(r) == multiset(s)
    ensures |r| == |s|
  {
    if s == [] then
      []
    else
      assert s == [s[0]] + s[1..];
      Insert(less, s[0], Sort(less, s[1..]))
  }

  lemma {:induction false} InsertSorted<T(!new)>(less: (T, T) -> bool, x: T, s: seq<T>)
    requires IsWeakOrder(less) && Sorted(less, s)
    ensures Sorted(less, Insert(less, x, s))
  {
    if s == [] || !less(s[0], x) {
      var r := [x] + s;
      forall i, j | 0 <= i < j < |r| ensures !less(r[j], r[i]) {
        if i == 0 && j > 1 {
          assert r[j] == s[j - 1] && !less(s[j - 1], s[0]);
        }
      }
    } else {
      InsertSorted(less, x, s[1..]);
      var tail := Insert(less, x, s[1..]);
      var r := [s[0]] + tail;
      forall i, j | 0 <= i < j < |r| ensures !less(r[j], r[i]) {
        if i == 0 {
          assert r[j] in multiset(tail);
          assert r[j] == x || r[j] in s[1..];
        }
      }
    }
  }

  lemma {:induction false} SortSorted<T(!new)>(less: (T, T) -> bool, s: seq<T>)
    requires IsWeakOrder(less)
    ensures Sorted(less, Sort(less, s))
  {
    if s != [] {
      SortSorted(less, s[1..]);
      InsertSorted(less, s[0], Sort(less, s[1..]));
    }
  }

  lemma {:induction false} SortedHead<T(!new)>(less: (T, T) -> bool, s: seq<T>, t: seq<T>)
    requires multiset(s) == multiset(t) && s != [] && t != []
    requires Sorted(less, s) && Sorted(less, t) && Separates(less, s)
    ensures s[0] == t[0]
  {
    assert s[0] in multiset(t) && t[0] in multiset(s);
    var i :| 0 <= i < |s| && s[i] == t[0];
    var j :| 0 <= j < |t| && t[j] == s[0];
    if i > 0 && j > 0 {
      assert !less(s[i], s[0]) && !less(t[j], t[0]);
    }
  }

  lemma {:induction false} TailOfSorted<T(!new)>(less: (T, T) -> bool, s: seq<T>)
    requires s != [] && Sorted(less, s)
    ensures Sorted(less, s[1..])
    ensures multiset(s) == multiset{s[0]} + multiset(s[1..])
  {
    assert s == [s[0]] + s[1..];
  }

  lemma {:induction false} TailSeparates<T(!new)>(less: (T, T) -> bool, s: seq<T>)
    requires s != [] && Separates(less, s)
    ensures Separates(less, s[1..])
  {
  }

  /** Two sorted arrangements of the same elements agree when ties are equal elements. */
  lemma {:induction false} SortedUnique<T(!new)>(less: (T, T) -> bool, s: seq<T>, t: seq<T>)
    requires multiset(s) == multiset(t)
    requires Sorted(less, s) && Sorted(less, t) && Separates(less, s)
    ensures s == t
  {
    hide Sorted, Separates;
    assert |multiset(s)| == |s| && |multiset(t)| == |t|;
    if s != [] {
      SortedHead(less, s, t);
      TailOfSorted(less, s);
      TailOfSorted(less, t);
      TailSeparates(less, s);
      assert multiset(s[1..]) == multiset(s) - multiset{s[0]} == multiset(t[1..]);
      SortedUnique(less, s[1..], t[1..]);
    }
  }

  /** Sorting forgets the order of its input, as long as no two distinct elements tie. */
  lemma {:induction false} SortIgnoresInputOrder<T(!new)>(less: (T, T) -> bool, s: seq<T>, t: seq<T>)
    requires IsWeakOrder(less) && Separates(less, s)
    requires multiset(s) == multiset(t)
    ensures Sort(less, s) == Sort(less, t)
  {
    SortSorted(less, s);
    SortSorted(less, t);
    forall a, b | a in Sort(less, s) && b in Sort(less, s) && a != b ensures less(a, b) || less(b, a) {
      assert a in multiset(s) && b in multiset(s);
    }
    SortedUnique(less, Sort(less, s), Sort(less, t));
  }
}
