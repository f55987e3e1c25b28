/** Dependency graphs, as both plan schedulers see them: a finite map from a step id to the
    ids it depends on. A dependency may name an id the plan does not hold. */
module PlanGraph {
  type Graph = map<string, set<string>>

  /** Every dependency names a step of the graph. */
  ghost predicate Closed(g: Graph) {
    forall id :: id in g ==> g[id] <= g.Keys
  }

  /** `p` follows dependency edges: each element depends on the next one. */
  ghost predicate IsWalk(g: Graph, p: seq<string>) {
    forall i :: 0 <= i < |p| - 1 ==> p[i] in g && p[i + 1] in g[p[i]]
  }

  /** A walk that comes back to where it started. */
  ghost predicate IsCycle(g: Graph, p: seq<string>) {
    |p| >= 2 && IsWalk(g, p) && p[0] == p[|p| - 1]
  }

  ghost predicate Acyclic(g: Graph) {
    forall p :: !IsCycle(g, p)
  }

  ghost predicate Distinct<T>(s: seq<T>) {
    forall i, j :: 0 <= i < j < |s| ==> s[i] != s[j]
  }

  ghost function Elements<T>(s: seq<T>): set<T> {
    set x | x in s
  }

  /** `order` runs steps only after everything they depend on. */
  ghost predicate RespectsDependencies(g: Graph, order: seq<string>) {
    forall i :: 0 <= i < |order| ==> order[i] in g && g[order[i]] <= Elements(order[..i])
  }

  /** `order` runs the whole graph, each step once and after its dependencies. */
  ghost predicate IsSchedule(g: Graph, order: seq<string>) {
    Distinct(order) && Elements(order) == g.Keys && RespectsDependencies(g, order)
  }

  ghost predicate Runnable(g: Graph) {
    Closed(g) && Acyclic(g)
  }

  lemma {:induction false} DistinctSize<T>(s: seq<T>)
    requires Distinct(s)
    ensures |Elements(s)| == |s|
  {
    if s != [] {
      var front, last := s[..|s| - 1], s[|s| - 1];
      DistinctSize(front);
      assert Elements(s) == Elements(front) + {last};
      assert last !in Elements(front);
    }
  }

  /** A sequence longer than the set its elements come from repeats an element. */
  lemma {:induction false} Pigeonhole<T>(s: seq<T>, universe: set<T>)
    requires Elements(s) <= universe
    requires |s| > |universe|
    ensures !Distinct(s)
  {
    if Distinct(s) {
      DistinctSize(s);
      SubsetSize(Elements(s), universe);
    }
  }

  lemma {:induction false} SubsetSize<T>(a: set<T>, b: set<T>)
    requires a <= b
    ensures |a| <= |b|
  {
    assert b == a + (b - a);
  }

  /** If every step of `rest` waits for another step of `rest`, a walk of any length stays inside. */
  lemma {:induction false} WalkInside(g: Graph, rest: set<string>, n: nat) returns (p: seq<string>)
    requires rest != {} && rest <= g.Keys
    requires forall id :: id in rest ==> g[id] * rest != {}
    ensures |p| == n + 1 && IsWalk(g, p) && Elements(p) <= rest
  {
    if n == 0 {
      var id :| id in rest;
      p := [id];
    } else {
      var q := WalkInside(g, rest, n - 1);
      assert q[|q| - 1] in Elements(q);
      var next :| next in g[q[|q| - 1]] * rest;
      p := q + [next];
    }
  }

  /** Steps that all wait for one another contain a cycle. */
  lemma {:induction false} MutualWaitIsCyclic(g: Graph, rest: set<string>)
    requires rest != {} && rest <= g.Keys
    requires forall id :: id in rest ==> g[id] * rest != {}
    ensures !Acyclic(g)
  {
    var p := WalkInside(g, rest, |rest|);
    Pigeonhole(p, rest);
    var i, j :| 0 <= i < j < |p| && p[i] == p[j];
    var loop := p[i..j + 1];
    forall k | 0 <= k < |loop| - 1 ensures loop[k] in g && loop[k + 1] in g[loop[k]] {
      assert loop[k] == p[i + k] && loop[k + 1] == p[i + k + 1];
    }
    assert IsCycle(g, loop);
  }

  /** The progress fact behind both schedulers: in a closed acyclic graph some unfinished step
      has only finished dependencies. */
  lemma {:induction false} SomeStepIsReady(g: Graph, done: set<string>) returns (id: string)
    requires Runnable(g)
    requires !(g.Keys <= done)
    ensures id in g.Keys - done && g[id] <= done
  {
    var rest := g.Keys - done;
    if forall k :: k in rest ==> g[k] * rest != {} {
      MutualWaitIsCyclic(g, rest);
      assert false;
    }
    id :| id in rest && g[id] * rest == {};
    DisjointFromRest(g[id], g.Keys, done);
  }

  lemma {:induction false} DisjointFromRest(deps: set<string>, keys: set<string>, done: set<string>)
    requires deps <= keys && deps * (keys - done) == {}
    ensures deps <= done
  {
    forall d | d in deps ensures d in done {
      assert d !in deps * (keys - done);
    }
  }

  /** Along a walk the position in a schedule goes strictly down. */
  lemma {:induction false} WalkDescends(g: Graph, order: seq<string>, p: seq<string>) returns (first: nat, last: nat)
    requires RespectsDependencies(g, order) && Distinct(order)
    requires |p| >= 1 && IsWalk(g, p) && p[0] in order
    ensures first < |order| && last < |order| && order[first] == p[0] && order[last] == p[|p| - 1]
    ensures last + |p| - 1 <= first
    decreases |p|
  {
    first :| 0 <= first < |order| && order[first] == p[0];
    if |p| == 1 {
      last := first;
    } else {
      assert p[1] in g[p[0]];
      assert p[1] in Elements(order[..first]);
      var tail := p[1..];
      forall i | 0 <= i < |tail| - 1 ensures tail[i] in g && tail[i + 1] in g[tail[i]] {
        assert tail[i] == p[i + 1] && tail[i + 1] == p[i + 2];
      }
      var second;
      second, last := WalkDescends(g, order, tail);
      var k :| 0 <= k < first && order[k] == p[1];
      assert second == k;
    }
  }

  /** A dependency-respecting order of the whole graph exists only when it is closed and acyclic. */
  lemma {:induction false} ScheduleMeansRunnable(g: Graph, order: seq<string>)
    requires IsSchedule(g, order)
    ensures Runnable(g)
  {
    forall id | id in g ensures g[id] <= g.Keys {
      assert id in Elements(order);
      var i :| 0 <= i < |order| && order[i] == id;
      assert g[order[i]] <= Elements(order[..i]) <= Elements(order);
    }
    forall p ensures !IsCycle(g, p) {
      if IsCycle(g, p) {
        assert p[0] in g;
        assert p[0] in Elements(order);
        var first, last := WalkDescends(g, order, p);
        assert false;
      }
    }
  }

  /** Extending a partial schedule one ready step at a time reaches a full one. */
  lemma {:induction false} CompleteSchedule(g: Graph, prefix: seq<string>) returns (order: seq<string>)
    requires Runnable(g)
    requires Distinct(prefix) && RespectsDependencies(g, prefix) && Elements(prefix) <= g.Keys
    ensures IsSchedule(g, order) && prefix <= order
    decreases |g.Keys - Elements(prefix)|
  {
    if g.Keys <= Elements(prefix) {
      order := prefix;
    } else {
      var id := SomeStepIsReady(g, Elements(prefix));
      Extend(g, prefix, id);
      order := CompleteSchedule(g, prefix + [id]);
    }
  }

  /** Appending a ready step keeps a partial schedule one, and leaves less to do. */
  lemma {:induction false} Extend(g: Graph, prefix: seq<string>, id: string)
    requires Distinct(prefix) && RespectsDependencies(g, prefix)
    requires id in g && id !in prefix && g[id] <= Elements(prefix)
    ensures Distinct(prefix + [id]) && RespectsDependencies(g, prefix + [id])
    ensures Elements(prefix + [id]) == Elements(prefix) + {id}
    ensures |g.Keys - Elements(prefix + [id])| < |g.Keys - Elements(prefix)|
  {
    ElementsOfAppend(prefix, id);
    assert g.Keys - Elements(prefix + [id]) == (g.Keys - Elements(prefix)) - {id};
    ExtendRespects(g, prefix, id);
  }

  lemma {:induction false} ElementsOfAppend<T>(s: seq<T>, x: T)
    ensures Elements(s + [x]) == Elements(s) + {x}
  {
    forall y | y in Elements(s) + {x} ensures y in s + [x] {
      if y == x {
        assert (s + [x])[|s|] == x;
      }
    }
  }

  lemma {:induction false} ExtendRespects(g: Graph, prefix: seq<string>, id: string)
    requires RespectsDependencies(g, prefix) && id in g && g[id] <= Elements(prefix)
    ensures RespectsDependencies(g, prefix + [id])
  {
    var longer := prefix + [id];
    forall i | 0 <= i < |longer| ensures longer[i] in g && g[longer[i]] <= Elements(longer[..i]) {
      if i < |prefix| {
        assert longer[..i] == prefix[..i];
      } else {
        assert longer[..i] == prefix;
      }
    }
  }

  /** A graph can be run to the end in dependency order exactly when it is closed and acyclic. */
  lemma {:induction false} RunnableIffSchedulable(g: Graph)
    ensures Runnable(g) <==> exists order :: IsSchedule(g, order)
  {
    if Runnable(g) {
      var order := CompleteSchedule(g, []);
    }
    if order :| IsSchedule(g, order) {
      ScheduleMeansRunnable(g, order);
    }
  }

  /** The test both schedulers make before they start a step. */
  method DependenciesDone(dependencies: seq<string>, completed: set<string>) returns (done: bool)
    ensures done <==> forall d :: d in dependencies ==> d in completed
  {
    for k := 0 to |dependencies|
      invariant forall d :: 0 <= d < k ==> dependencies[d] in completed
    {
      if dependencies[k] !in completed {
        return false;
      }
    }
    return true;
  }
}
