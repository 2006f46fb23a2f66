/** Chaining and enqueueing (PeakOperation/Core/Operation+Queue.swift) and `overallProgress`
    (PeakOperation/ConcurrentOperation.swift): `then(do:)`, handing an operation's chain or the
    chains of a collection to a queue, and the two progress trees built over a chain. */
module OperationQueues {
  import opened Results
  import opened Chains
  import opened Progresses
  import opened Lifecycle
  import opened OperationGraphs
  import opened UsingResults

  /** Every operation in the chain of a known operation is known. */
  lemma ChainKnown(w: World, rank: map<Id, nat>, n: nat, id: Id)
    requires WorldValid(w, rank, n) && id in w.config
    ensures OperationChain(w.deps, rank, id) <= w.config.Keys
  {
    forall y | y in OperationChain(w.deps, rank, id) ensures y in w.config {
      ChainTransitive(w.deps, rank, id, y);
    }
  }

  /** `then(do:)`: `op` waits for `self`, and is returned. Its chain gains the chain of `self`;
      the edge must close no cycle. */
  method Then(g: OperationGraph, self: Id, op: Id) returns (r: Id)
    requires g.Valid() && self in g.config && op in g.config
    requires op !in OperationChain(g.deps, g.rank, self)
    modifies g
    ensures r == op && g.Valid() && g.nextId == old(g.nextId)
    ensures DepsOf(g.deps, op) == DepsOf(old(g.deps), op) + {self}
    ensures forall y | y != op :: DepsOf(g.deps, y) == DepsOf(old(g.deps), y)
    ensures OperationChain(g.deps, g.rank, op)
         == OperationChain(old(g.deps), old(g.rank), op) + OperationChain(old(g.deps), old(g.rank), self)
    ensures g.config == old(g.config) && g.status == old(g.status) && g.inputs == old(g.inputs)
    ensures g.arrays == old(g.arrays) && g.queued == old(g.queued) && g.log == old(g.log)
  {
    g.AddDependency(op, self);
    AddEdgeExtendsChain(old(g.deps), old(g.rank), op, self, g.rank);
    r := op;
  }

  /** `Set(flatMap { $0.operationChain })`: every operation in the chain of some member. */
  function ChainsOf(g: Graph, ghost rank: map<Id, nat>, ops: set<Id>): (c: set<Id>)
    requires Ranked(g, rank) && ops <= rank.Keys
  {
    set x, y | x in ops && y in OperationChain(g, rank, x) :: y
  }

  /** The union of the chains is exactly what the members reach along dependencies. */
  lemma ChainsOfReach(g: Graph, rank: map<Id, nat>, ops: set<Id>, y: Id)
    requires Ranked(g, rank) && ops <= rank.Keys
    ensures y in ChainsOf(g, rank, ops) <==> exists x | x in ops :: Reaches(g, x, y)
  {
    if y in ChainsOf(g, rank, ops) {
      var x :| x in ops && y in OperationChain(g, rank, x);
      ChainIsReachable(g, rank, x, y);
    }
    if exists x | x in ops :: Reaches(g, x, y) {
      var x :| x in ops && Reaches(g, x, y);
      ChainIsReachable(g, rank, x, y);
    }
  }

  /** What is handed to the queue is closed under dependencies: every operation that a handed
      operation waits for is handed over too, so none waits for an operation never queued. */
  lemma ChainsOfClosed(g: Graph, rank: map<Id, nat>, ops: set<Id>, y: Id, d: Id)
    requires Ranked(g, rank) && ops <= rank.Keys
    requires y in ChainsOf(g, rank, ops) && d in DepsOf(g, y)
    ensures d in ChainsOf(g, rank, ops)
  {
    var x :| x in ops && y in OperationChain(g, rank, x);
    ChainClosed(g, rank, x, y, d);
  }

  /** The chains of a chain's members add nothing to the chain. */
  lemma ChainsOfChain(g: Graph, rank: map<Id, nat>, id: Id)
    requires Ranked(g, rank) && id in rank
    ensures OperationChain(g, rank, id) <= rank.Keys
    ensures ChainsOf(g, rank, OperationChain(g, rank, id)) == OperationChain(g, rank, id)
  {
    var chain := OperationChain(g, rank, id);
    forall y | y in chain ensures y in rank {
      ChainTransitive(g, rank, id, y);
    }
    forall y | y in ChainsOf(g, rank, chain) ensures y in chain {
      var x :| x in chain && y in OperationChain(g, rank, x);
      ChainTransitive(g, rank, id, x);
    }
  }

  /** `enqueue(on:)` of a collection: the chains of all its members are handed to the queue. */
  method EnqueueAll(g: OperationGraph, ops: set<Id>)
    requires g.Valid() && ops <= g.config.Keys
    modifies g
    ensures g.Valid() && g.rank == old(g.rank) && g.nextId == old(g.nextId)
    ensures g.queued == old(g.queued) + ChainsOf(old(g.deps), old(g.rank), ops)
    ensures g.config == old(g.config) && g.status == old(g.status) && g.inputs == old(g.inputs)
    ensures g.arrays == old(g.arrays) && g.deps == old(g.deps) && g.log == old(g.log)
  {
    var chain := ChainsOf(g.deps, g.rank, ops);
    g.AddOperations(chain);
  }

  /** `enqueue(on:)`: the receiver's chain is handed to the queue, and the receiver returned. */
  method Enqueue(g: OperationGraph, id: Id) returns (r: Id)
    requires g.Valid() && id in g.config
    modifies g
    ensures r == id && g.Valid() && g.rank == old(g.rank) && g.nextId == old(g.nextId)
    ensures g.queued == old(g.queued) + OperationChain(old(g.deps), old(g.rank), id)
    ensures g.config == old(g.config) && g.status == old(g.status) && g.inputs == old(g.inputs)
    ensures g.arrays == old(g.arrays) && g.deps == old(g.deps) && g.log == old(g.log)
  {
    ChainKnown(g.Snapshot(), g.rank, g.nextId, id);
    ChainsOfChain(g.deps, g.rank, id);
    EnqueueAll(g, OperationChain(g.deps, g.rank, id));
    r := id;
  }

  /** `enqueue(on:completion:)`: the completion becomes a result block, then the chain is
      handed to the queue. */
  method EnqueueWithCompletion(g: OperationGraph, id: Id, tag: nat) returns (r: Id)
    requires g.Valid() && id in g.config
    modifies g
    ensures r == id && g.Valid() && g.nextId == old(g.nextId)
    ensures g.config == old(g.config)[id := old(g.config[id]).(completion := old(g.config[id]).completion + [ResultBlock(tag)])]
    ensures g.queued == old(g.queued) + OperationChain(old(g.deps), old(g.rank), id)
    ensures g.status == old(g.status) && g.inputs == old(g.inputs)
    ensures g.arrays == old(g.arrays) && g.deps == old(g.deps) && g.log == old(g.log)
  {
    AddResultBlock(g, id, tag);
    r := Enqueue(g, id);
  }

  /** `chainProgress()`: 100 units over the receiver's chain, split evenly, the last child
      taking the remainder. The chain is never empty: it holds the receiver. */
  method ChainProgressOf(g: OperationGraph, id: Id) returns (p: Progress)
    requires g.Valid() && id in g.config
    ensures var chain := OperationChain(g.deps, g.rank, id);
            && p.total == 100 == PendingSum(p.children)
            && ChildOps(p.children) == chain && Distinct(p.children) && |p.children| == |chain|
            && (forall i | 0 <= i < |p.children| - 1 :: p.children[i].pending == 100 / |chain|)
            && p.children[|p.children| - 1].pending == 100 / |chain| + 100 % |chain|
  {
    p := ChainProgress(OperationChain(g.deps, g.rank, id));
  }

  /** `enqueueWithProgress(on:)`: enqueue the chain, then return its `chainProgress()`. */
  method EnqueueWithProgress(g: OperationGraph, id: Id) returns (p: Progress)
    requires g.Valid() && id in g.config
    modifies g
    ensures g.Valid() && g.rank == old(g.rank) && g.nextId == old(g.nextId)
    ensures g.queued == old(g.queued) + OperationChain(old(g.deps), old(g.rank), id)
    ensures g.config == old(g.config) && g.status == old(g.status) && g.inputs == old(g.inputs)
    ensures g.arrays == old(g.arrays) && g.deps == old(g.deps) && g.log == old(g.log)
    ensures p.total == 100 == PendingSum(p.children)
    ensures ChildOps(p.children) == OperationChain(g.deps, g.rank, id) && Distinct(p.children)
    ensures |p.children| == |OperationChain(g.deps, g.rank, id)|
    ensures var n := |OperationChain(g.deps, g.rank, id)|;
            && (forall i | 0 <= i < |p.children| - 1 :: p.children[i].pending == 100 / n)
            && p.children[|p.children| - 1].pending == 100 / n + 100 % n
  {
    var _ := Enqueue(g, id);
    p := ChainProgressOf(g, id);
  }

  /** `enqueueWithProgress(on:completion:)`: add the result block, enqueue the chain, then
      return its `chainProgress()`. */
  method EnqueueWithProgressAndCompletion(g: OperationGraph, id: Id, tag: nat) returns (p: Progress)
    requires g.Valid() && id in g.config
    modifies g
    ensures g.Valid() && g.nextId == old(g.nextId)
    ensures g.config == old(g.config)[id := old(g.config[id]).(completion := old(g.config[id]).completion + [ResultBlock(tag)])]
    ensures g.queued == old(g.queued) + OperationChain(old(g.deps), old(g.rank), id)
    ensures g.status == old(g.status) && g.inputs == old(g.inputs)
    ensures g.arrays == old(g.arrays) && g.deps == old(g.deps) && g.log == old(g.log)
    ensures p.total == 100 == PendingSum(p.children)
    ensures ChildOps(p.children) == OperationChain(g.deps, g.rank, id) && Distinct(p.children)
    ensures |p.children| == |OperationChain(g.deps, g.rank, id)|
    ensures var n := |OperationChain(g.deps, g.rank, id)|;
            && (forall i | 0 <= i < |p.children| - 1 :: p.children[i].pending == 100 / n)
            && p.children[|p.children| - 1].pending == 100 / n + 100 % n
  {
    AddResultBlock(g, id, tag);
    var _ := Enqueue(g, id);
    p := ChainProgressOf(g, id);
  }

  /** The estimated seconds of each of `ops`. */
  function EstimatedSeconds(config: map<Id, Config>, ops: set<Id>): (weight: map<Id, int>)
    requires ops <= config.Keys
    ensures weight.Keys == ops
  {
    map x | x in ops :: config[x].estimatedSeconds
  }

  /** `overallProgress()`: every operation of the chain is a child weighted by its estimated
      seconds, and the total is the sum of those seconds. */
  method OverallProgress(g: OperationGraph, id: Id) returns (p: Progress)
    requires g.Valid() && id in g.config
    ensures var chain := OperationChain(g.deps, g.rank, id);
            && chain <= g.config.Keys
            && p.total == SetSum(chain, EstimatedSeconds(g.config, chain)) == PendingSum(p.children)
            && ChildOps(p.children) == chain && Distinct(p.children) && |p.children| == |chain|
            && Weighted(p.children, EstimatedSeconds(g.config, chain))
  {
    var chain := OperationChain(g.deps, g.rank, id);
    ChainKnown(g.Snapshot(), g.rank, g.nextId, id);
    p := Collate(chain, EstimatedSeconds(g.config, chain));
  }

  /** Two new block operations estimated at `a` and `b` seconds, without dependencies. */
  method TwoBlockOperations(a: int, b: int) returns (g: OperationGraph, first: Id, second: Id)
    ensures fresh(g) && g.Valid() && first in g.config && second in g.config && first != second
    ensures g.config[first].estimatedSeconds == a && g.config[second].estimatedSeconds == b
    ensures DepsOf(g.deps, first) == {} && DepsOf(g.deps, second) == {}
  {
    g := new OperationGraph();
    first := g.Register(BlockResult(() => Success(Flag(true))));
    second := g.Register(BlockResult(() => Success(Flag(true))));
    g.SetEstimatedSeconds(first, a);
    g.SetEstimatedSeconds(second, b);
  }

  /** Two block operations estimated at 1 and 10 seconds, joined by `first.then(do: second)`. */
  method DetailedProgressGraph() returns (g: OperationGraph, first: Id, second: Id)
    ensures g.Valid() && first in g.config && second in g.config && first != second
    ensures g.config[first].estimatedSeconds == 1 && g.config[second].estimatedSeconds == 10
    ensures OperationChain(g.deps, g.rank, second) == {second, first}
  {
    var op;
    g, first, op := TwoBlockOperations(1, 10);
    ChainOfIndependent(g.deps, g.rank, first);
    ChainOfIndependent(g.deps, g.rank, op);
    ghost var joined := OperationChain(g.deps, g.rank, op) + OperationChain(g.deps, g.rank, first);
    assert joined == {op, first};
    second := Then(g, first, op);
  }

  /** The second operation's `overallProgress()` has 11 units over two children. */
  method DetailedProgressExample() returns (p: Progress)
    ensures p.total == 11 == PendingSum(p.children) && |p.children| == 2
  {
    var g, first, second := DetailedProgressGraph();
    p := OverallProgress(g, second);
    PairSums(second, first, EstimatedSeconds(g.config, {second, first}));
  }

  /** A pair of distinct operations: two members, summing to the two weights. */
  lemma PairSums(a: Id, b: Id, weight: map<Id, int>)
    requires a != b && a in weight && b in weight
    ensures |{a, b}| == 2 && SetSum({a, b}, weight) == weight[a] + weight[b]
  {
    SetSumPair(a, b, weight);
    assert {a, b} == {a} + {b};
  }
}
