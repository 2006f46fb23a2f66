/** `operationChain` (PeakOperation/Core/Operation+Queue.swift): the receiver together with its
    dependencies, their dependencies, and so on, as a set.

    The dependency graph maps each operation to the set of operations it depends on.
    The source recurses over `dependencies` and so terminates only on an acyclic graph,
    which is its callers' responsibility. Here a ghost `rank` witnesses that contract:
    every dependency has a strictly smaller rank than its dependant. */
module Chains {

  type Id = nat
  type Graph = map<Id, set<Id>>

  /** `rank` covers the graph and strictly decreases along every dependency edge. */
  ghost predicate Ranked(g: Graph, rank: map<Id, nat>) {
    && g.Keys <= rank.Keys
    && forall x, d | d in DepsOf(g, x) :: x in rank && d in rank && rank[d] < rank[x]
  }

  /** The dependencies of `x`; an operation the graph does not mention has none. */
  function DepsOf(g: Graph, x: Id): set<Id> {
    if x in g then g[x] else {}
  }

  /** `Set(dependencies.flatMap { $0.operationChain } + [self])`. */
  function OperationChain(g: Graph, ghost rank: map<Id, nat>, x: Id): (c: set<Id>)
    requires Ranked(g, rank) && x in rank
    ensures x in c
    decreases rank[x]
  {
    {x} + (set d, y | d in DepsOf(g, x) && y in OperationChain(g, rank, d) :: y)
  }

  /** A path of dependency edges: each element depends on the next one. */
  ghost predicate IsPath(g: Graph, p: seq<Id>) {
    && |p| > 0
    && forall i | 0 <= i < |p| - 1 :: p[i + 1] in DepsOf(g, p[i])
  }

  /** `y` is reachable from `x` by following dependency edges (zero or more). */
  ghost predicate Reaches(g: Graph, x: Id, y: Id) {
    exists p: seq<Id> :: IsPath(g, p) && p[0] == x && p[|p| - 1] == y
  }

  /** The chain is exactly the set of operations reachable from the receiver: the
      reflexive-transitive closure of the dependency relation. */
  lemma {:induction false} ChainIsReachable(g: Graph, rank: map<Id, nat>, x: Id, y: Id)
    requires Ranked(g, rank) && x in rank
    ensures y in OperationChain(g, rank, x) <==> Reaches(g, x, y)
    decreases rank[x]
  {
    if y in OperationChain(g, rank, x) {
      if y == x {
        assert IsPath(g, [x]);
      } else {
        var d :| d in DepsOf(g, x) && y in OperationChain(g, rank, d);
        ChainIsReachable(g, rank, d, y);
        var p :| IsPath(g, p) && p[0] == d && p[|p| - 1] == y;
        var q := [x] + p;
        assert q[1] == d;
        assert IsPath(g, q);
        assert q[|q| - 1] == y;
      }
    }
    if Reaches(g, x, y) {
      var p :| IsPath(g, p) && p[0] == x && p[|p| - 1] == y;
      PathInChain(g, rank, p);
    }
  }

  /** Every element of a path lies in the chain of its first element. */
  lemma {:induction false} PathInChain(g: Graph, rank: map<Id, nat>, p: seq<Id>)
    requires Ranked(g, rank) && IsPath(g, p) && p[0] in rank
    ensures p[|p| - 1] in OperationChain(g, rank, p[0])
    decreases |p|
  {
    if |p| > 1 {
      var d := p[1];
      assert d in DepsOf(g, p[0]);
      var rest := p[1..];
      assert IsPath(g, rest) by {
        forall i | 0 <= i < |rest| - 1 ensures rest[i + 1] in DepsOf(g, rest[i]) {
          assert rest[i] == p[i + 1] && rest[i + 1] == p[i + 2];
        }
      }
      PathInChain(g, rank, rest);
      assert rest[|rest| - 1] == p[|p| - 1];
    }
  }

  /** Everything in the chain of a chain member is in the receiver's chain. */
  lemma {:induction false} ChainTransitive(g: Graph, rank: map<Id, nat>, x: Id, y: Id)
    requires Ranked(g, rank) && x in rank
    requires y in OperationChain(g, rank, x)
    ensures y in rank
    ensures OperationChain(g, rank, y) <= OperationChain(g, rank, x)
    decreases rank[x]
  {
    if y != x {
      var d :| d in DepsOf(g, x) && y in OperationChain(g, rank, d);
      ChainTransitive(g, rank, d, y);
    }
  }

  /** Every operation in the chain is in the rank's domain and ranks no higher than the receiver. */
  lemma {:induction false} ChainBelowRank(g: Graph, rank: map<Id, nat>, x: Id, y: Id)
    requires Ranked(g, rank) && x in rank
    requires y in OperationChain(g, rank, x)
    ensures y in rank && rank[y] <= rank[x]
    ensures y != x ==> rank[y] < rank[x]
    decreases rank[x]
  {
    if y != x {
      var d :| d in DepsOf(g, x) && y in OperationChain(g, rank, d);
      ChainBelowRank(g, rank, d, y);
    }
  }

  /** The chain does not depend on which rank witnesses acyclicity. */
  lemma {:induction false} ChainRankIndependent(g: Graph, r1: map<Id, nat>, r2: map<Id, nat>, x: Id)
    requires Ranked(g, r1) && Ranked(g, r2) && x in r1 && x in r2
    ensures OperationChain(g, r1, x) == OperationChain(g, r2, x)
  {
    forall y ensures y in OperationChain(g, r1, x) <==> y in OperationChain(g, r2, x) {
      ChainIsReachable(g, r1, x, y);
      ChainIsReachable(g, r2, x, y);
    }
  }

  /** An operation without dependencies has the chain `{op}`. */
  lemma ChainOfIndependent(g: Graph, rank: map<Id, nat>, x: Id)
    requires Ranked(g, rank) && x in rank && DepsOf(g, x) == {}
    ensures OperationChain(g, rank, x) == {x}
  {
  }

  /** The chain is closed under dependencies: a dependency of a member is a member. */
  lemma ChainClosed(g: Graph, rank: map<Id, nat>, x: Id, y: Id, d: Id)
    requires Ranked(g, rank) && x in rank
    requires y in OperationChain(g, rank, x) && d in DepsOf(g, y)
    ensures d in OperationChain(g, rank, x)
  {
    ChainTransitive(g, rank, x, y);
    DepChainIncluded(g, rank, y, d);
  }

  /** The chain of a dependency is part of the dependant's chain. */
  lemma DepChainIncluded(g: Graph, rank: map<Id, nat>, x: Id, d: Id)
    requires Ranked(g, rank) && x in rank && d in DepsOf(g, x)
    ensures d in rank && rank[d] < rank[x]
    ensures OperationChain(g, rank, d) <= OperationChain(g, rank, x)
  {
  }

  /** One unfolding of the chain: the receiver, or a member of a dependency's chain. */
  lemma ChainUnfold(g: Graph, rank: map<Id, nat>, x: Id, y: Id)
    requires Ranked(g, rank) && x in rank
    ensures y in OperationChain(g, rank, x) <==>
            y == x || exists d :: d in DepsOf(g, x) && y in OperationChain(g, rank, d)
  {
  }

  /** Adding the edge "x depends on d". */
  function AddEdge(g: Graph, x: Id, d: Id): (g': Graph)
    ensures g'.Keys == g.Keys + {x}
    ensures DepsOf(g', x) == DepsOf(g, x) + {d}
    ensures forall y | y != x :: DepsOf(g', y) == DepsOf(g, y)
  {
    g[x := DepsOf(g, x) + {d}]
  }

  /** Removing the edge "x depends on d" (no effect when it is absent). */
  function RemoveEdge(g: Graph, x: Id, d: Id): (g': Graph)
    ensures g'.Keys == g.Keys + {x}
    ensures DepsOf(g', x) == DepsOf(g, x) - {d}
    ensures forall y | y != x :: DepsOf(g', y) == DepsOf(g, y)
  {
    g[x := DepsOf(g, x) - {d}]
  }

  /** Removing an edge keeps every rank valid. */
  lemma RemoveEdgeKeepsRanked(g: Graph, rank: map<Id, nat>, x: Id, d: Id)
    requires Ranked(g, rank) && x in rank
    ensures Ranked(RemoveEdge(g, x, d), rank)
  {
    var g' := RemoveEdge(g, x, d);
    forall y, z | z in DepsOf(g', y) ensures y in rank && z in rank && rank[z] < rank[y] {
      assert z in DepsOf(g, y);
    }
  }

  /** A new rank for the graph with the edge x -> d added: everything whose chain holds `x`
      moves up by `rank[d] + 1`. */
  ghost function Rerank(g: Graph, rank: map<Id, nat>, x: Id, d: Id): map<Id, nat>
    requires Ranked(g, rank) && x in rank && d in rank
  {
    map y | y in rank :: if x in OperationChain(g, rank, y) then rank[y] + rank[d] + 1 else rank[y]
  }

  /** As long as `x` is not already in the chain of `d` (the edge closes no cycle),
      the graph with the new edge is still acyclic. */
  lemma RerankRanked(g: Graph, rank: map<Id, nat>, x: Id, d: Id)
    requires Ranked(g, rank) && x in rank && d in rank
    requires x !in OperationChain(g, rank, d)
    ensures Ranked(AddEdge(g, x, d), Rerank(g, rank, x, d))
    ensures Rerank(g, rank, x, d).Keys == rank.Keys
  {
    var g', r' := AddEdge(g, x, d), Rerank(g, rank, x, d);
    forall y, z | z in DepsOf(g', y) ensures y in r' && z in r' && r'[z] < r'[y] {
      RerankEdge(g, rank, x, d, y, z);
    }
  }

  /** One edge of the extended graph goes strictly down in the new rank. */
  lemma RerankEdge(g: Graph, rank: map<Id, nat>, x: Id, d: Id, y: Id, z: Id)
    requires Ranked(g, rank) && x in rank && d in rank
    requires x !in OperationChain(g, rank, d)
    requires z in DepsOf(AddEdge(g, x, d), y)
    ensures y in Rerank(g, rank, x, d) && z in Rerank(g, rank, x, d)
    ensures Rerank(g, rank, x, d)[z] < Rerank(g, rank, x, d)[y]
  {
    var r' := Rerank(g, rank, x, d);
    if y == x && z == d {
      assert x in OperationChain(g, rank, x);
      assert r'[x] == rank[x] + rank[d] + 1;
      assert r'[d] == rank[d];
    } else {
      assert z in DepsOf(g, y) by {
        if y != x {
          assert DepsOf(AddEdge(g, x, d), y) == DepsOf(g, y);
        }
      }
      assert y in g;
      DepChainIncluded(g, rank, y, z);
      assert r'[y] == if x in OperationChain(g, rank, y) then rank[y] + rank[d] + 1 else rank[y];
      assert r'[z] == if x in OperationChain(g, rank, z) then rank[z] + rank[d] + 1 else rank[z];
    }
  }

  /** Adding the edge x -> d leaves unchanged the chain of every operation that does not
      reach `x`, in particular the chain of `d` itself, whichever rank witnesses the new graph. */
  lemma AddEdgeKeepsChain(g: Graph, rank: map<Id, nat>, x: Id, d: Id, r': map<Id, nat>, z: Id)
    requires Ranked(g, rank) && z in rank
    requires Ranked(AddEdge(g, x, d), r') && z in r'
    requires x !in OperationChain(g, rank, z)
    ensures OperationChain(AddEdge(g, x, d), r', z) == OperationChain(g, rank, z)
  {
    ChainAwayFrom(g, rank, AddEdge(g, x, d), r', {x}, z);
  }

  /** Two graphs that give `z` the same dependencies, each with the same chain, give `z`
      the same chain. */
  lemma SameDepChainsSameChain(g1: Graph, r1: map<Id, nat>, g2: Graph, r2: map<Id, nat>, z: Id)
    requires Ranked(g1, r1) && Ranked(g2, r2) && z in r1 && z in r2
    requires DepsOf(g1, z) == DepsOf(g2, z)
    requires forall e | e in DepsOf(g1, z) :: OperationChain(g1, r1, e) == OperationChain(g2, r2, e)
    ensures OperationChain(g1, r1, z) == OperationChain(g2, r2, z)
  {
    forall y ensures y in OperationChain(g1, r1, z) <==> y in OperationChain(g2, r2, z) {
      ChainUnfold(g1, r1, z, y);
      ChainUnfold(g2, r2, z, y);
    }
  }

  /** Adding the edge x -> d puts the chain of `d` into the chain of `x`, whichever rank
      witnesses the new graph (RerankRanked gives one when the edge closes no cycle). */
  lemma AddEdgeExtendsChain(g: Graph, rank: map<Id, nat>, x: Id, d: Id, r': map<Id, nat>)
    requires Ranked(g, rank) && x in rank && d in rank
    requires Ranked(AddEdge(g, x, d), r') && x in r'
    ensures OperationChain(AddEdge(g, x, d), r', x) == OperationChain(g, rank, x) + OperationChain(g, rank, d)
  {
    forall y ensures y in OperationChain(AddEdge(g, x, d), r', x) <==> y in OperationChain(g, rank, x) + OperationChain(g, rank, d) {
      AddEdgeExtendsAt(g, rank, x, d, r', y);
    }
  }

  /** The membership form of AddEdgeExtendsChain, one operation at a time. */
  lemma AddEdgeExtendsAt(g: Graph, rank: map<Id, nat>, x: Id, d: Id, r': map<Id, nat>, y: Id)
    requires Ranked(g, rank) && x in rank && d in rank
    requires Ranked(AddEdge(g, x, d), r') && x in r'
    ensures y in OperationChain(AddEdge(g, x, d), r', x)
        <==> y in OperationChain(g, rank, x) || y in OperationChain(g, rank, d)
  {
    var g' := AddEdge(g, x, d);
    ChainIsReachable(g', r', x, y);
    ChainIsReachable(g, rank, x, y);
    ChainIsReachable(g, rank, d, y);
    if Reaches(g', x, y) {
      var p :| IsPath(g', p) && p[0] == x && p[|p| - 1] == y;
      NewPathSplits(g, x, d, p);
    }
    if Reaches(g, x, y) {
      var p :| IsPath(g, p) && p[0] == x && p[|p| - 1] == y;
      PathSurvivesAddEdge(g, x, d, p);
    }
    if Reaches(g, d, y) {
      var p :| IsPath(g, p) && p[0] == d && p[|p| - 1] == y;
      PathSurvivesAddEdge(g, x, d, p);
      PrependPath(g', x, p);
    }
  }

  /** A path of the old graph is a path of the graph with one more edge. */
  lemma PathSurvivesAddEdge(g: Graph, x: Id, d: Id, p: seq<Id>)
    requires IsPath(g, p)
    ensures IsPath(AddEdge(g, x, d), p)
  {
    var g' := AddEdge(g, x, d);
    forall i | 0 <= i < |p| - 1 ensures p[i + 1] in DepsOf(g', p[i]) {
      assert p[i + 1] in DepsOf(g, p[i]);
    }
  }

  /** A path that starts at a dependency of `x` extends back to `x`. */
  lemma PrependPath(g: Graph, x: Id, p: seq<Id>)
    requires IsPath(g, p) && p[0] in DepsOf(g, x)
    ensures IsPath(g, [x] + p) && ([x] + p)[0] == x && ([x] + p)[|[x] + p| - 1] == p[|p| - 1]
    ensures Reaches(g, x, p[|p| - 1])
  {
    var q := [x] + p;
    forall i | 0 <= i < |q| - 1 ensures q[i + 1] in DepsOf(g, q[i]) {
      if i > 0 {
        assert q[i] == p[i - 1] && q[i + 1] == p[i];
      }
    }
    assert IsPath(g, q) && q[0] == x && q[|q| - 1] == p[|p| - 1];
  }

  /** A path from position `k` on is a path. */
  lemma SuffixPath(g: Graph, p: seq<Id>, k: nat)
    requires IsPath(g, p) && k < |p|
    ensures IsPath(g, p[k..])
  {
    var s := p[k..];
    forall i | 0 <= i < |s| - 1 ensures s[i + 1] in DepsOf(g, s[i]) {
      assert s[i] == p[k + i] && s[i + 1] == p[k + i + 1];
    }
  }

  /** A path with the new edge x -> d that never visits `x` uses only old edges. */
  lemma PathAvoiding(g: Graph, x: Id, d: Id, p: seq<Id>)
    requires IsPath(AddEdge(g, x, d), p) && x !in p
    ensures IsPath(g, p)
  {
    forall i | 0 <= i < |p| - 1 ensures p[i + 1] in DepsOf(g, p[i]) {
      assert p[i] != x;
      assert p[i + 1] in DepsOf(AddEdge(g, x, d), p[i]);
    }
  }

  /** A path from `x` in the graph with the new edge x -> d either stays in the old graph or,
      from some point on, continues from `d` in the old graph. */
  lemma NewPathSplits(g: Graph, x: Id, d: Id, p: seq<Id>)
    requires IsPath(AddEdge(g, x, d), p) && p[0] == x
    ensures Reaches(g, x, p[|p| - 1]) || Reaches(g, d, p[|p| - 1])
  {
    // the last position at which the path visits x
    var k := LastIndexOf(p, x);
    if k == |p| - 1 {
      assert IsPath(g, [x]) && [x][0] == x == p[|p| - 1];
    } else {
      var tail := p[k + 1..];
      AfterLastVisit(g, x, d, p, k);
      assert tail[|tail| - 1] == p[|p| - 1];
      if tail[0] == d {
        assert Reaches(g, d, p[|p| - 1]);
      } else {
        PrependPath(g, x, tail);
      }
    }
  }

  /** What follows the last visit of `x` on a path of the extended graph is a path of the old
      graph, starting at a new-graph dependency of `x`. */
  lemma AfterLastVisit(g: Graph, x: Id, d: Id, p: seq<Id>, k: nat)
    requires IsPath(AddEdge(g, x, d), p) && k < |p| - 1 && p[k] == x
    requires forall i | k < i < |p| :: p[i] != x
    ensures IsPath(g, p[k + 1..]) && p[k + 1] in DepsOf(AddEdge(g, x, d), x)
  {
    var tail := p[k + 1..];
    SuffixPath(AddEdge(g, x, d), p, k + 1);
    assert x !in tail by {
      forall i | 0 <= i < |tail| ensures tail[i] != x {
        assert tail[i] == p[k + 1 + i];
      }
    }
    PathAvoiding(g, x, d, tail);
  }

  /** The index of the last occurrence of `x` in `p`. */
  function LastIndexOf(p: seq<Id>, x: Id): (k: nat)
    requires x in p
    ensures k < |p| && p[k] == x
    ensures forall i | k < i < |p| :: p[i] != x
  {
    if p[|p| - 1] == x then |p| - 1 else LastIndexOf(p[..|p| - 1], x)
  }

  /** A graph that changes only the dependencies of the operations in `xs` leaves unchanged the
      chain of every operation that reaches none of them, whichever rank witnesses the new graph. */
  lemma {:induction false} ChainAwayFrom(g: Graph, rank: map<Id, nat>, g': Graph, rank': map<Id, nat>, xs: set<Id>, z: Id)
    requires Ranked(g, rank) && Ranked(g', rank') && z in rank && z in rank'
    requires forall y | y !in xs :: DepsOf(g', y) == DepsOf(g, y)
    requires xs !! OperationChain(g, rank, z)
    ensures OperationChain(g', rank', z) == OperationChain(g, rank, z)
    decreases rank[z]
  {
    assert z !in xs;
    forall e | e in DepsOf(g', z)
      ensures OperationChain(g', rank', e) == OperationChain(g, rank, e)
    {
      DepChainIncluded(g, rank, z, e);
      ChainAwayFrom(g, rank, g', rank', xs, e);
    }
    SameDepChainsSameChain(g', rank', g, rank, z);
  }
}
