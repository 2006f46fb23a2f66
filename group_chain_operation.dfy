/** Building a `GroupChainOperation` (PeakOperation/Core/GroupChainOperation.swift). What the
    group does when it runs (enqueue the wrapped chain on its internal queue, or fail at once on a
    failed input) and when the wrapped operation completes (copy its outcome and finish) is part
    of the lifecycle model; this module holds the initialiser and the progress it sets up. */
module GroupChains {
  import opened Results
  import opened Chains
  import opened Progresses
  import opened Lifecycle
  import opened OperationGraphs
  import opened UsingResults
  import opened OperationQueues
  import Mapping

  /** The configuration a new group wrapping `tail` is given: the default one, or, when
      collating, one that manages its own progress, whose unit count and estimated seconds are
      both the sum of the weights of `chain`, and whose children are the members of `chain`,
      each weighted by its weight. */
  ghost predicate GroupSetUp(c: Config, tail: Id, collate: bool, chain: set<Id>, weight: map<Id, int>)
    requires chain <= weight.Keys
  {
    if collate then
      && c == NewConfig(GroupChain(tail)).(managesOwnProgress := true, totalUnits := c.totalUnits,
                                           estimatedSeconds := c.estimatedSeconds,
                                           progressChildren := c.progressChildren)
      && c.totalUnits == c.estimatedSeconds == SetSum(chain, weight) == PendingSum(c.progressChildren)
      && ChildOps(c.progressChildren) == chain && Distinct(c.progressChildren)
      && Weighted(c.progressChildren, weight)
    else
      c == NewConfig(GroupChain(tail))
  }

  /** The collating part of the initialiser: the progress and the estimate are rebuilt from
      the chain's weights. */
  method CollateProgress(g: OperationGraph, id: Id, tail: Id, chain: set<Id>, weight: map<Id, int>)
    requires g.Valid() && id in g.config && g.config[id] == NewConfig(GroupChain(tail)) && chain <= weight.Keys
    modifies g
    ensures g.Valid() && g.rank == old(g.rank) && g.nextId == old(g.nextId)
    ensures g.config.Keys == old(g.config).Keys && GroupSetUp(g.config[id], tail, true, chain, weight)
    ensures forall k | k in old(g.config) && k != id :: g.config[k] == old(g.config[k])
    ensures g.status == old(g.status) && g.inputs == old(g.inputs) && g.arrays == old(g.arrays)
    ensures g.deps == old(g.deps) && g.queued == old(g.queued) && g.log == old(g.log)
  {
    var p := Collate(chain, weight);
    g.SetProgress(id, p);
    g.SetEstimatedSeconds(id, p.total);
  }

  /** The group itself, before `tail` gains its result block: registered, then set up. */
  method RegisterGroup(g: OperationGraph, tail: Id, collate: bool, chain: set<Id>, weight: map<Id, int>)
    returns (id: Id)
    requires g.Valid() && tail in g.config && chain <= weight.Keys
    modifies g
    ensures g.Valid() && id == old(g.nextId) && id !in old(g.config) && g.nextId == id + 1
    ensures g.config.Keys == old(g.config).Keys + {id} && GroupSetUp(g.config[id], tail, collate, chain, weight)
    ensures forall k | k in old(g.config) :: g.config[k] == old(g.config[k])
    ensures g.status == old(g.status)[id := NewStatus()] && g.inputs == old(g.inputs)[id := Success(Unit)]
    ensures g.arrays == old(g.arrays) && g.deps == old(g.deps) && g.queued == old(g.queued) && g.log == old(g.log)
  {
    id := g.Register(GroupChain(tail));
    if collate {
      CollateProgress(g, id, tail, chain, weight);
    }
  }

  /** `init(with:collateProgress:)`, and `group(collateProgress:)`, which calls it: a new group
      wrapping `tail`, whose input starts as `success(())`, set up as `GroupSetUp` says from
      the estimated seconds of the chain of `tail`. Last, `tail` gains a result block that hands
      its outcome to the group and finishes it. */
  method NewGroup(g: OperationGraph, tail: Id, collate: bool) returns (id: Id)
    requires g.Valid() && tail in g.config
    modifies g
    ensures g.Valid() && id == old(g.nextId) && id !in old(g.config) && g.nextId == id + 1
    ensures OperationChain(old(g.deps), old(g.rank), tail) <= old(g.config).Keys
    ensures g.config.Keys == old(g.config).Keys + {id}
    ensures GroupSetUp(g.config[id], tail, collate, OperationChain(old(g.deps), old(g.rank), tail),
                       EstimatedSeconds(old(g.config), OperationChain(old(g.deps), old(g.rank), tail)))
    ensures g.config[tail] == old(g.config[tail]).(completion := old(g.config[tail]).completion + [GroupCompletion(id)])
    ensures forall k | k in old(g.config) && k != tail :: g.config[k] == old(g.config[k])
    ensures g.status == old(g.status)[id := NewStatus()] && g.inputs == old(g.inputs)[id := Success(Unit)]
    ensures g.arrays == old(g.arrays) && g.deps == old(g.deps) && g.queued == old(g.queued) && g.log == old(g.log)
  {
    var chain := OperationChain(g.deps, g.rank, tail);
    ChainKnown(g.Snapshot(), g.rank, g.nextId, tail);
    var weight := EstimatedSeconds(g.config, chain);
    id := RegisterGroup(g, tail, collate, chain, weight);
    ghost var config1 := g.config;
    g.AddCompletion(tail, GroupCompletion(id));
    assert g.config == config1[tail := config1[tail].(completion := config1[tail].completion + [GroupCompletion(id)])];
  }

  /** `b` waits for `a` alone, and `a` for nothing: the chain of `b` is the pair. */
  lemma PairChain(g: Graph, rank: map<Id, nat>, a: Id, b: Id)
    requires Ranked(g, rank) && a in rank && b in rank
    requires DepsOf(g, a) == {} && DepsOf(g, b) == {a}
    ensures OperationChain(g, rank, b) == {b, a}
  {
    ChainOfIndependent(g, rank, a);
    forall y ensures y in OperationChain(g, rank, b) <==> y in {b, a} {
      ChainUnfold(g, rank, b, y);
    }
  }

  /** The sum over one operation is its weight. */
  lemma SingleSum(a: Id, weight: map<Id, int>)
    requires a in weight
    ensures SetSum({a}, weight) == weight[a]
  {
    SetSumRemove({a}, weight, a);
    assert {a} - {a} == {};
  }

  /** A block operation producing "Hello" and a map operation appending " World!", not yet joined. */
  method HelloWorld() returns (g: OperationGraph, first: Id, second: Id)
    ensures fresh(g) && g.Valid() && first in g.config && second in g.config && second in g.inputs
    ensures first != second && DepsOf(g.deps, first) == {} && DepsOf(g.deps, second) == {}
    ensures g.config[first].estimatedSeconds == 1 && g.config[second].estimatedSeconds == 1
  {
    g := new OperationGraph();
    first := g.Register(BlockResult(() => Success(Text("Hello"))));
    second := g.Register(Map(Mapping.ValueMap((v: Value) =>
                               if v.Text? then Success(Text(v.s + " World!")) else Success(v))));
  }

  /** The two joined by `passesResult(to:)`, each estimated at one second. */
  method PassingPair() returns (g: OperationGraph, first: Id, second: Id)
    ensures fresh(g) && g.Valid() && first in g.config && second in g.config && first != second
    ensures g.config[first].estimatedSeconds == 1 && g.config[second].estimatedSeconds == 1
    ensures OperationChain(g.deps, g.rank, second) == {second, first}
  {
    g, first, second := HelloWorld();
    ChainOfIndependent(g.deps, g.rank, first);
    second := PassesResult(g, first, second);
    PairChain(g.deps, g.rank, first, second);
  }

  /** The pair grouped, with or without collating: the group's own chain is the group alone, so
      `enqueueWithProgress()` returns 100 units, while `overallProgress()` totals the group's
      estimate, which is 1 second, or the 2 seconds of the pair when collating. */
  method GroupProgressExample(collate: bool) returns (enqueued: Progress, overall: Progress)
    ensures enqueued.total == 100 && |enqueued.children| == 1
    ensures overall.total == (if collate then 2 else 1) && |overall.children| == 1
  {
    var g, first, second := PassingPair();
    ghost var config0 := g.config;
    var group := NewGroup(g, second, collate);
    assert DepsOf(g.deps, group) == {};
    ChainOfIndependent(g.deps, g.rank, group);
    if collate {
      PairSums(second, first, EstimatedSeconds(config0, {second, first}));
    }
    enqueued := EnqueueWithProgress(g, group);
    overall := OverallProgress(g, group);
    SingleSum(group, EstimatedSeconds(g.config, {group}));
  }
}
