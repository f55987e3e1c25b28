/** Small things every model uses. */
module Basics {

  /** An instant; clocks only move forward. */
  type Time = int

  datatype Option<T> = None | Some(value: T)

  /** One for true, nothing for false: how a flag counts. */
  function One(b: bool): nat {
    if b then 1 else 0
  }

  function Max(a: int, b: int): int {
    if a >= b then a else b
  }

  function Min(a: nat, b: nat): nat {
    if a <= b then a else b
  }

  // ---------------------------------------------------------------- counting

  /** How many elements satisfy `f`. */
  function Count<T>(s: seq<T>, f: T -> bool): nat {
    if s == [] then 0 else Count(s[..|s| - 1], f) + One(f(s[|s| - 1]))
  }

  lemma {:induction false} CountUpdate<T>(s: seq<T>, i: nat, x: T, f: T -> bool)
    requires i < |s|
    ensures Count(s[i := x], f) == Count(s, f) - One(f(s[i])) + One(f(x))
  {
    var n := |s| - 1;
    if i == n {
      assert s[i := x][..n] == s[..n];
    } else {
      assert s[i := x][..n] == s[..n][i := x];
      CountUpdate(s[..n], i, x, f);
    }
  }

  lemma {:induction false} CountAppend<T>(s: seq<T>, x: T, f: T -> bool)
    ensures Count(s + [x], f) == Count(s, f) + One(f(x))
  {
    assert (s + [x])[..|s|] == s;
  }

  lemma {:induction false} CountNone<T>(s: seq<T>, f: T -> bool)
    requires forall i :: 0 <= i < |s| ==> !f(s[i])
    ensures Count(s, f) == 0
  {
    if s != [] {
      CountNone(s[..|s| - 1], f);
    }
  }

  lemma {:induction false} CountAtMost<T>(s: seq<T>, f: T -> bool)
    ensures Count(s, f) <= |s|
  {
    if s != [] {
      CountAtMost(s[..|s| - 1], f);
    }
  }

  lemma {:induction false} CountImplies<T>(s: seq<T>, f: T -> bool, g: T -> bool)
    requires forall i :: 0 <= i < |s| && f(s[i]) ==> g(s[i])
    ensures Count(s, f) <= Count(s, g)
  {
    if s != [] {
      CountImplies(s[..|s| - 1], f, g);
    }
  }

  lemma {:induction false} CountSome<T>(s: seq<T>, i: nat, f: T -> bool)
    requires i < |s| && f(s[i])
    ensures Count(s, f) > 0
  {
    if i < |s| - 1 {
      CountSome(s[..|s| - 1], i, f);
    }
  }

  lemma {:induction false} Counted<T>(s: seq<T>, f: T -> bool) returns (i: nat)
    requires Count(s, f) > 0
    ensures i < |s| && f(s[i])
  {
    i := |s| - 1;
    if !f(s[i]) {
      i := Counted(s[..|s| - 1], f);
    }
  }

  lemma {:induction false} CountConcat<T>(a: seq<T>, b: seq<T>, f: T -> bool)
    ensures Count(a + b, f) == Count(a, f) + Count(b, f)
  {
    if b == [] {
      assert a + b == a;
    } else {
      assert (a + b)[..|a + b| - 1] == a + b[..|b| - 1];
      CountConcat(a, b[..|b| - 1], f);
    }
  }

  // ---------------------------------------------------------------- selecting

  /** The elements that satisfy `f`, in order. */
  function Select<T>(s: seq<T>, f: T -> bool): seq<T> {
    if s == [] then [] else Select(s[..|s| - 1], f) + if f(s[|s| - 1]) then [s[|s| - 1]] else []
  }

  lemma {:induction false} SelectHas<T>(s: seq<T>, f: T -> bool, x: T)
    ensures x in Select(s, f) <==> x in s && f(x)
  {
    if s != [] {
      var n := |s| - 1;
      assert s == s[..n] + [s[n]];
      SelectHas(s[..n], f, x);
    }
  }

  lemma {:induction false} SelectStep<T>(s: seq<T>, i: nat, f: T -> bool)
    requires i < |s|
    ensures Select(s[..i + 1], f) == Select(s[..i], f) + if f(s[i]) then [s[i]] else []
  {
    assert s[..i + 1][..i] == s[..i];
  }
}
