/** The observed parallelism of a set of workflow traces
    (go-core/cmd/verify-orchestrator/main.go:919-950): a sweep over sorted start and end edges finds
    the largest number of traces running at one instant. */
module SweepLine {
  import opened Basics
  import opened Sorting

  /** The zero time, which means "not set". */
  const UNSET: Time := 0

  datatype Trace = Trace(started: Time, completed: Time)

  datatype Edge = Edge(at: Time, delta: int)

  predicate Measured(trace: Trace) {
    trace.started != UNSET && trace.completed != UNSET && trace.completed > trace.started
  }

  predicate RunsAt(trace: Trace, t: Time) {
    Measured(trace) && trace.started <= t <= trace.completed
  }

  /** How many measured traces run at instant `t`, both ends included. */
  function Overlap(traces: seq<Trace>, t: Time): nat {
    if traces == [] then 0
    else Overlap(traces[..|traces| - 1], t) + if RunsAt(traces[|traces| - 1], t) then 1 else 0
  }

  /** Earlier edges first; at the same instant starts before ends. */
  predicate EdgeLess(a: Edge, b: Edge) {
    if a.at == b.at then a.delta > b.delta else a.at < b.at
  }

  function Sum(edges: seq<Edge>): int {
    if edges == [] then 0 else edges[0].delta + Sum(edges[1..])
  }

  function Edges(traces: seq<Trace>): seq<Edge> {
    if traces == [] then []
    else
      var last := traces[|traces| - 1];
      Edges(traces[..|traces| - 1]) + if Measured(last) then [Edge(last.started, 1), Edge(last.completed, -1)] else []
  }

  // ---------------------------------------------------------------- edges and instants

  /** The edge has taken effect at `t`: a start at `t` counts, an end at `t` does not yet. */
  predicate Passed(e: Edge, t: Time) {
    if e.delta > 0 then e.at <= t else e.at < t
  }

  /** The sum of the edges that have taken effect at `t`. */
  function Net(edges: seq<Edge>, t: Time): int {
    if edges == [] then 0 else (if Passed(edges[0], t) then edges[0].delta else 0) + Net(edges[1..], t)
  }

  lemma {:induction false} NetConcat(a: seq<Edge>, b: seq<Edge>, t: Time)
    ensures Net(a + b, t) == Net(a, t) + Net(b, t)
  {
    hide Passed;
    if a == [] {
      assert a + b == b;
    } else {
      assert (a + b)[0] == a[0] && (a + b)[1..] == a[1..] + b;
      NetConcat(a[1..], b, t);
    }
  }

  lemma {:induction false} NetOfPair(a: Edge, b: Edge, t: Time)
    ensures Net([a, b], t) == (if Passed(a, t) then a.delta else 0) + if Passed(b, t) then b.delta else 0
  {
    hide Passed;
    assert [a, b][1..] == [b] && [b][1..] == [];
    assert Net([b], t) == (if Passed(b, t) then b.delta else 0);
  }

  /** The edges in effect at an instant add up to the traces running then. */
  lemma {:induction false} NetIsOverlap(traces: seq<Trace>, t: Time)
    ensures Net(Edges(traces), t) == Overlap(traces, t)
  {
    if traces != [] {
      var n := |traces| - 1;
      var last := traces[n];
      NetIsOverlap(traces[..n], t);
      if Measured(last) {
        NetConcat(Edges(traces[..n]), [Edge(last.started, 1), Edge(last.completed, -1)], t);
        NetOfPair(Edge(last.started, 1), Edge(last.completed, -1), t);
      } else {
        assert Edges(traces) == Edges(traces[..n]);
      }
    }
  }

  lemma {:induction false} NetOfInsert(e: Edge, s: seq<Edge>, t: Time)
    ensures Net(Insert(EdgeLess, e, s), t) == (if Passed(e, t) then e.delta else 0) + Net(s, t)
  {
    hide Passed, EdgeLess;
    if s == [] || !EdgeLess(s[0], e) {
      assert ([e] + s)[1..] == s;
    } else {
      assert ([s[0]] + Insert(EdgeLess, e, s[1..]))[1..] == Insert(EdgeLess, e, s[1..]);
      NetOfInsert(e, s[1..], t);
    }
  }

  lemma {:induction false} NetOfSort(s: seq<Edge>, t: Time)
    ensures Net(Sort(EdgeLess, s), t) == Net(s, t)
  {
    hide Passed, EdgeLess;
    if s != [] {
      NetOfSort(s[1..], t);
      NetOfInsert(s[0], Sort(EdgeLess, s[1..]), t);
    }
  }

  // ---------------------------------------------------------------- prefixes of the sorted edges

  lemma {:induction false} EdgeLessIsWeak()
    ensures IsWeakOrder(EdgeLess)
  {
  }

  lemma {:induction false} SumAppend(s: seq<Edge>, e: Edge)
    ensures Sum(s + [e]) == Sum(s) + e.delta
  {
    if s == [] {
      assert s + [e] == [e] && [e][1..] == [];
    } else {
      assert (s + [e])[0] == s[0] && (s + [e])[1..] == s[1..] + [e];
      SumAppend(s[1..], e);
    }
  }

  lemma {:induction false} NothingPassed(s: seq<Edge>, t: Time)
    requires forall k :: 0 <= k < |s| ==> !Passed(s[k], t)
    ensures Net(s, t) == 0
  {
    hide Passed;
    if s != [] {
      NothingPassed(s[1..], t);
    }
  }

  ghost predicate UnitEdges(s: seq<Edge>) {
    forall k :: 0 <= k < |s| ==> s[k].delta == 1 || s[k].delta == -1
  }

  /** In sorted order the edges in effect at an instant come first. */
  lemma {:induction false} InstantIsPrefix(s: seq<Edge>, t: Time) returns (k: nat)
    requires Sorted(EdgeLess, s) && UnitEdges(s)
    ensures k <= |s| && Net(s, t) == Sum(s[..k])
  {
    if s == [] {
      k := 0;
    } else if !Passed(s[0], t) {
      forall j | 0 <= j < |s| ensures !Passed(s[j], t) {
        assert j > 0 ==> !EdgeLess(s[j], s[0]);
      }
      NothingPassed(s, t);
      k := 0;
    } else {
      var rest := InstantIsPrefix(s[1..], t);
      k := rest + 1;
      assert s[..k][1..] == s[1..][..rest];
    }
  }

  lemma {:induction false} OnlyStartsPassed(s: seq<Edge>, t: Time)
    requires forall k :: 0 <= k < |s| ==> s[k].delta >= 0 || !Passed(s[k], t)
    ensures Net(s, t) >= 0
  {
    hide Passed;
    if s != [] {
      OnlyStartsPassed(s[1..], t);
    }
  }

  /** Right after a start edge, at least as many traces run as the sweep has counted. */
  lemma {:induction false} PrefixIsReached(s: seq<Edge>, k: nat)
    requires Sorted(EdgeLess, s) && UnitEdges(s) && 0 < k <= |s| && s[k - 1].delta == 1
    ensures Net(s, s[k - 1].at) >= Sum(s[..k])
  {
    var t := s[k - 1].at;
    if k == 1 {
      assert s[..1][1..] == [];
      forall j | 0 <= j < |s[1..]| ensures s[1..][j].delta >= 0 || !Passed(s[1..][j], t) {
        assert !EdgeLess(s[j + 1], s[0]);
      }
      OnlyStartsPassed(s[1..], t);
    } else {
      assert !EdgeLess(s[k - 1], s[0]);
      assert s[..k][1..] == s[1..][..k - 1];
      PrefixIsReached(s[1..], k - 1);
    }
  }

  // ---------------------------------------------------------------- the sweep

  lemma {:induction false} EdgesAreUnit(traces: seq<Trace>)
    ensures UnitEdges(Edges(traces))
  {
    if traces != [] {
      EdgesAreUnit(traces[..|traces| - 1]);
    }
  }

  lemma {:induction false} SortKeepsUnit(s: seq<Edge>)
    requires UnitEdges(s)
    ensures UnitEdges(Sort(EdgeLess, s))
  {
    hide EdgeLess;
    var r := Sort(EdgeLess, s);
    forall k | 0 <= k < |r| ensures r[k].delta == 1 || r[k].delta == -1 {
      assert r[k] in multiset(s);
    }
  }

  /** The sweep's running maximum bounds every instant, and some instant attains it. */
  lemma {:induction false} SweepIsMaximum(traces: seq<Trace>, s: seq<Edge>, highest: int)
    requires s == Sort(EdgeLess, Edges(traces))
    requires forall k :: 0 <= k <= |s| ==> Sum(s[..k]) <= highest
    requires highest == 0 || exists k :: 0 < k <= |s| && s[k - 1].delta == 1 && Sum(s[..k]) == highest
    ensures forall t :: Overlap(traces, t) <= highest
    ensures exists t :: Overlap(traces, t) == highest
  {
    hide EdgeLess, Sort;
    EdgeLessIsWeak();
    SortSorted(EdgeLess, Edges(traces));
    EdgesAreUnit(traces);
    SortKeepsUnit(Edges(traces));
    forall t ensures Overlap(traces, t) == Net(s, t) <= highest {
      NetIsOverlap(traces, t);
      NetOfSort(Edges(traces), t);
      var k := InstantIsPrefix(s, t);
    }
    if highest == 0 {
      assert Overlap(traces, 0) == highest;
    } else {
      var k :| 0 < k <= |s| && s[k - 1].delta == 1 && Sum(s[..k]) == highest;
      PrefixIsReached(s, k);
      assert Overlap(traces, s[k - 1].at) == highest;
    }
  }

  /** The result is the maximum, over all instants, of the number of measured traces running. */
  method MaxObservedParallelism(traces: seq<Trace>) returns (highest: int)
    ensures forall t :: Overlap(traces, t) <= highest
    ensures exists t :: Overlap(traces, t) == highest
  {
    hide Sort, EdgeLess;
    var edges: seq<Edge> := [];
    for i := 0 to |traces|
      invariant edges == Edges(traces[..i])
    {
      assert traces[..i + 1][..i] == traces[..i];
      var trace := traces[i];
      if trace.started == UNSET || trace.completed == UNSET || !(trace.completed > trace.started) {
        continue;
      }
      edges := edges + [Edge(trace.started, 1)];
      edges := edges + [Edge(trace.completed, -1)];
    }
    assert traces[..|traces|] == traces;
    ghost var unsorted := edges;
    edges := Sort(EdgeLess, edges);
    EdgesAreUnit(traces);
    SortKeepsUnit(unsorted);
    var current := 0;
    highest := 0;
    for i := 0 to |edges|
      invariant current == Sum(edges[..i]) <= highest
      invariant forall k :: 0 <= k <= i ==> Sum(edges[..k]) <= highest
      invariant highest == 0 || exists k :: 0 < k <= i && edges[k - 1].delta == 1 && Sum(edges[..k]) == highest
    {
      assert edges[..i + 1] == edges[..i] + [edges[i]];
      SumAppend(edges[..i], edges[i]);
      current := current + edges[i].delta;
      if current > highest {
        assert edges[(i + 1) - 1].delta == 1 && Sum(edges[..i + 1]) == current;
        highest := current;
      }
    }
    SweepIsMaximum(traces, edges, highest);
  }

  // ---------------------------------------------------------------- why ties matter

  /** The other way to break ties: ends before starts. */
  predicate EndsFirst(a: Edge, b: Edge) {
    if a.at == b.at then a.delta < b.delta else a.at < b.at
  }

  /** With ends before starts, two traces that meet at one instant are never counted together. */
  lemma {:induction false} EndsFirstUndercounts() returns (traces: seq<Trace>, swept: seq<Edge>)
    ensures Sorted(EndsFirst, swept) && multiset(swept) == multiset(Edges(traces))
    ensures Overlap(traces, 2) == 2
    ensures forall k :: 0 <= k <= |swept| ==> Sum(swept[..k]) <= 1
  {
    var a, b := Trace(1, 2), Trace(2, 3);
    traces := [a, b];
    assert traces[..1] == [a] && [a][..0] == [];
    assert Overlap([a], 2) == 1;
    assert Edges([a]) == [Edge(1, 1), Edge(2, -1)];
    assert Edges(traces) == [Edge(1, 1), Edge(2, -1), Edge(2, 1), Edge(3, -1)];
    swept := Edges(traces);
    PrefixSums(swept[0], swept[1], swept[2], swept[3]);
  }

  lemma {:induction false} PrefixSums(a: Edge, b: Edge, c: Edge, d: Edge)
    requires a.delta <= 1 && a.delta + b.delta <= 1 && a.delta + b.delta + c.delta <= 1
               && a.delta + b.delta + c.delta + d.delta <= 1
    ensures forall k :: 0 <= k <= 4 ==> Sum([a, b, c, d][..k]) <= 1
  {
    var s := [a, b, c, d];
    SumAppend([], a);
    SumAppend([a], b);
    SumAppend([a, b], c);
    SumAppend([a, b, c], d);
    assert s[..0] == [] && s[..1] == [] + [a] && s[..2] == [a] + [b] && s[..3] == [a, b] + [c]
             && s[..4] == [a, b, c] + [d];
    hide Sum;
    forall k | 0 <= k <= 4 ensures Sum(s[..k]) <= 1 {
      assert k == 0 || k == 1 || k == 2 || k == 3 || k == 4;
    }
  }
}
