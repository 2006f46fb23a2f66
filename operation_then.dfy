/** The dependency helpers of Operation/Operation+Then.swift and Operation/Collection+Then.swift:
    completion blocks, adding and removing dependencies, and the list-building `then(do:)`.

    Each helper is a loop of Foundation's `addDependency` or `removeDependency` calls on the
    operation graph. Their contracts speak of the dependency sets (`DepsOf`), which is what
    Foundation's `dependencies` arrays hold up to order and repetition. */
module OperationThen {
  import opened Results
  import opened Chains
  import opened Lifecycle
  import opened OperationGraphs

  /** `addCompletionBlock`: the new block runs after the existing one (with none, it is the
      whole completion block). */
  method AddCompletionBlock(g: OperationGraph, id: Id, tag: nat)
    requires g.Valid() && id in g.config
    modifies g
    ensures g.Valid() && g.nextId == old(g.nextId)
    ensures g.config == old(g.config)[id := old(g.config[id]).(completion := old(g.config[id]).completion + [Plain(tag)])]
    ensures g.status == old(g.status) && g.inputs == old(g.inputs) && g.arrays == old(g.arrays) && g.deps == old(g.deps)
    ensures g.queued == old(g.queued) && g.log == old(g.log)
  {
    g.AddCompletion(id, Plain(tag));
  }

  /** The operations listed in `ds`. */
  function Elements(ds: seq<Id>): (r: set<Id>)
    ensures forall d :: d in r <==> d in ds
  {
    set d | d in ds
  }

  /** The elements of one more prefix of `ds`. */
  lemma ElementsPrefix(ds: seq<Id>, i: nat)
    requires i < |ds|
    ensures ds[..i + 1] == ds[..i] + [ds[i]]
    ensures Elements(ds[..i + 1]) == Elements(ds[..i]) + {ds[i]}
  {
    assert ds[..i + 1] == ds[..i] + [ds[i]];
  }

  /** Set algebra for one more added dependency, kept out of the loops' larger contexts. */
  lemma UnionStep(a: set<Id>, b: set<Id>, d: Id)
    ensures a + b + {d} == a + (b + {d})
  {
  }

  /** Set algebra for one more removed dependency. */
  lemma DifferenceStep(a: set<Id>, b: set<Id>, d: Id)
    ensures a - b - {d} == a - (b + {d})
  {
  }

  /** Moving one element from the pending set to the done set keeps their union. */
  lemma MoveElement(a: set<Id>, b: set<Id>, d: Id)
    requires d in a
    ensures (a - {d}) + (b + {d}) == a + b
  {
  }

  /** `add(dependency:)`: `x` waits for `d` as well. */
  method AddDependency(g: OperationGraph, x: Id, d: Id)
    requires g.Valid() && x in g.config && d in g.config
    requires x !in OperationChain(g.deps, g.rank, d)
    modifies g
    ensures g.Valid() && g.nextId == old(g.nextId)
    ensures DepsOf(g.deps, x) == DepsOf(old(g.deps), x) + {d}
    ensures forall y | y != x :: DepsOf(g.deps, y) == DepsOf(old(g.deps), y)
    ensures g.config == old(g.config) && g.status == old(g.status) && g.inputs == old(g.inputs)
    ensures g.arrays == old(g.arrays) && g.queued == old(g.queued) && g.log == old(g.log)
  {
    g.AddDependency(x, d);
  }

  /** `add(dependencies:)`: each given operation becomes a dependency of `x`, one after the
      other; none may close a cycle. The variadic form is the same call. */
  method AddDependencies(g: OperationGraph, x: Id, ds: seq<Id>)
    requires g.Valid() && x in g.config
    requires forall i | 0 <= i < |ds| :: ds[i] in g.config && x !in OperationChain(g.deps, g.rank, ds[i])
    modifies g
    ensures g.Valid() && g.nextId == old(g.nextId)
    ensures DepsOf(g.deps, x) == DepsOf(old(g.deps), x) + Elements(ds)
    ensures forall y | y != x :: DepsOf(g.deps, y) == DepsOf(old(g.deps), y)
    ensures g.config == old(g.config) && g.status == old(g.status) && g.inputs == old(g.inputs)
    ensures g.arrays == old(g.arrays) && g.queued == old(g.queued) && g.log == old(g.log)
  {
    ghost var added: set<Id> := {};
    for i := 0 to |ds|
      invariant g.Valid() && g.nextId == old(g.nextId)
      invariant DepsOf(g.deps, x) == DepsOf(old(g.deps), x) + added && added == Elements(ds[..i])
      invariant forall y | y != x :: DepsOf(g.deps, y) == DepsOf(old(g.deps), y)
      invariant g.config == old(g.config) && g.status == old(g.status) && g.inputs == old(g.inputs)
      invariant g.arrays == old(g.arrays) && g.queued == old(g.queued) && g.log == old(g.log)
    {
      ChainAwayFrom(old(g.deps), old(g.rank), g.deps, g.rank, {x}, ds[i]);
      g.AddDependency(x, ds[i]);
      UnionStep(DepsOf(old(g.deps), x), added, ds[i]);
      ElementsPrefix(ds, i);
      added := added + {ds[i]};
    }
    assert ds[..|ds|] == ds;
  }

  /** `remove(dependency:)`: `x` no longer waits for `d`. */
  method RemoveDependency(g: OperationGraph, x: Id, d: Id)
    requires g.Valid() && x in g.config
    modifies g
    ensures g.Valid() && g.nextId == old(g.nextId) && g.rank == old(g.rank)
    ensures DepsOf(g.deps, x) == DepsOf(old(g.deps), x) - {d}
    ensures forall y | y != x :: DepsOf(g.deps, y) == DepsOf(old(g.deps), y)
    ensures g.config == old(g.config) && g.status == old(g.status) && g.inputs == old(g.inputs)
    ensures g.arrays == old(g.arrays) && g.queued == old(g.queued) && g.log == old(g.log)
  {
    g.RemoveDependency(x, d);
  }

  /** `remove(dependencies:)`: each given operation stops being a dependency of `x`; an
      operation that was not one is ignored, as Foundation ignores it. */
  method RemoveDependencies(g: OperationGraph, x: Id, ds: seq<Id>)
    requires g.Valid() && x in g.config
    modifies g
    ensures g.Valid() && g.nextId == old(g.nextId) && g.rank == old(g.rank)
    ensures DepsOf(g.deps, x) == DepsOf(old(g.deps), x) - Elements(ds)
    ensures forall y | y != x :: DepsOf(g.deps, y) == DepsOf(old(g.deps), y)
    ensures g.config == old(g.config) && g.status == old(g.status) && g.inputs == old(g.inputs)
    ensures g.arrays == old(g.arrays) && g.queued == old(g.queued) && g.log == old(g.log)
  {
    ghost var removed: set<Id> := {};
    for i := 0 to |ds|
      invariant g.Valid() && g.nextId == old(g.nextId) && g.rank == old(g.rank)
      invariant DepsOf(g.deps, x) == DepsOf(old(g.deps), x) - removed && removed == Elements(ds[..i])
      invariant forall y | y != x :: DepsOf(g.deps, y) == DepsOf(old(g.deps), y)
      invariant g.config == old(g.config) && g.status == old(g.status) && g.inputs == old(g.inputs)
      invariant g.arrays == old(g.arrays) && g.queued == old(g.queued) && g.log == old(g.log)
    {
      g.RemoveDependency(x, ds[i]);
      DifferenceStep(DepsOf(old(g.deps), x), removed, ds[i]);
      ElementsPrefix(ds, i);
      removed := removed + {ds[i]};
    }
    assert ds[..|ds|] == ds;
  }

  /** `removeAllDependencies`: removes each current dependency in turn, leaving none. */
  method RemoveAllDependencies(g: OperationGraph, x: Id)
    requires g.Valid() && x in g.config
    modifies g
    ensures g.Valid() && g.nextId == old(g.nextId) && g.rank == old(g.rank)
    ensures DepsOf(g.deps, x) == {}
    ensures forall y | y != x :: DepsOf(g.deps, y) == DepsOf(old(g.deps), y)
    ensures g.config == old(g.config) && g.status == old(g.status) && g.inputs == old(g.inputs)
    ensures g.arrays == old(g.arrays) && g.queued == old(g.queued) && g.log == old(g.log)
  {
    var dependencies := DepsOf(g.deps, x);
    ghost var removed: set<Id> := {};
    while dependencies != {}
      invariant g.Valid() && g.nextId == old(g.nextId) && g.rank == old(g.rank)
      invariant DepsOf(g.deps, x) == DepsOf(old(g.deps), x) - removed
      invariant dependencies + removed == DepsOf(old(g.deps), x)
      invariant forall y | y != x :: DepsOf(g.deps, y) == DepsOf(old(g.deps), y)
      invariant g.config == old(g.config) && g.status == old(g.status) && g.inputs == old(g.inputs)
      invariant g.arrays == old(g.arrays) && g.queued == old(g.queued) && g.log == old(g.log)
      decreases |dependencies|
    {
      var d :| d in dependencies;
      g.RemoveDependency(x, d);
      DifferenceStep(DepsOf(old(g.deps), x), removed, d);
      MoveElement(dependencies, removed, d);
      removed := removed + {d};
      dependencies := dependencies - {d};
    }
  }

  /** `then(do:)` on one operation: `op` waits for `self`, and the pair is returned. `self`
      must not be finished (the source asserts it) and must not already wait for `op`. */
  method ThenPair(g: OperationGraph, self: Id, op: Id) returns (r: seq<Id>)
    requires g.Valid() && self in g.config && op in g.config
    requires !IsFinished(g.status[self])
    requires op !in OperationChain(g.deps, g.rank, self)
    modifies g
    ensures r == [self, op]
    ensures g.Valid() && g.nextId == old(g.nextId)
    ensures DepsOf(g.deps, op) == DepsOf(old(g.deps), op) + {self}
    ensures forall y | y != op :: DepsOf(g.deps, y) == DepsOf(old(g.deps), y)
    ensures g.config == old(g.config) && g.status == old(g.status) && g.inputs == old(g.inputs)
    ensures g.arrays == old(g.arrays) && g.queued == old(g.queued) && g.log == old(g.log)
  {
    AddDependency(g, op, self);
    r := [self, op];
  }

  /** `then(do:)` with a block that makes the next operation: no operation leaves the list at
      `[self]`; an error the block throws is rethrown, with nothing changed. */
  method ThenBlock(g: OperationGraph, self: Id, made: Result<Option<Id>>) returns (r: Result<seq<Id>>)
    requires g.Valid() && self in g.config
    requires made.Success? && made.value.Some? ==>
               var op := made.value.value;
               op in g.config && !IsFinished(g.status[self]) && op !in OperationChain(g.deps, g.rank, self)
    modifies g
    ensures g.Valid() && g.nextId == old(g.nextId)
    ensures made.Failure? ==> r == Failure(made.error) && g.deps == old(g.deps)
    ensures made == Success(None) ==> r == Success([self]) && g.deps == old(g.deps)
    ensures made.Success? && made.value.Some? ==>
              var op := made.value.value;
              && r == Success([self, op])
              && DepsOf(g.deps, op) == DepsOf(old(g.deps), op) + {self}
              && forall y | y != op :: DepsOf(g.deps, y) == DepsOf(old(g.deps), y)
    ensures g.config == old(g.config) && g.status == old(g.status) && g.inputs == old(g.inputs)
    ensures g.arrays == old(g.arrays) && g.queued == old(g.queued) && g.log == old(g.log)
  {
    match made
    case Failure(e) =>
      r := Failure(e);
    case Success(None) =>
      r := Success([self]);
    case Success(Some(op)) =>
      var pair := ThenPair(g, self, op);
      r := Success(pair);
  }

  /** The dependencies after `then(do:)` on a list has made the operations in `added` wait
      for `last`. */
  ghost predicate WaitOnLast(g0: Graph, g: Graph, added: set<Id>, last: Id) {
    && (forall y | y in added :: DepsOf(g, y) == DepsOf(g0, y) + {last})
    && (forall y | y !in added :: DepsOf(g, y) == DepsOf(g0, y))
  }

  /** Making one more operation `n` wait for `last` keeps `WaitOnLast`, also when `n` was
      already made to wait. */
  lemma WaitOnLastStep(g0: Graph, g: Graph, g': Graph, added: set<Id>, last: Id, n: Id)
    requires WaitOnLast(g0, g, added, last)
    requires DepsOf(g', n) == DepsOf(g, n) + {last}
    requires forall y | y != n :: DepsOf(g', y) == DepsOf(g, y)
    ensures WaitOnLast(g0, g', added + {n}, last)
  {
    if n in added {
      assert DepsOf(g', n) == DepsOf(g0, n) + {last} + {last};
    }
  }

  /** `then(do:)` on a list: every operation of `next` waits for the last operation of `ops`
      (when there is one), and the lists are joined. The last operation must not be finished
      (the source asserts it) and none of `next` may be in its chain. The variadic form is the
      same call. */
  method ThenSeq(g: OperationGraph, ops: seq<Id>, next: seq<Id>) returns (r: seq<Id>)
    requires g.Valid()
    requires ops != [] ==>
               var last := ops[|ops| - 1];
               && last in g.config && !IsFinished(g.status[last])
               && forall i | 0 <= i < |next| :: next[i] in g.config && next[i] !in OperationChain(g.deps, g.rank, last)
    modifies g
    ensures r == ops + next
    ensures g.Valid() && g.nextId == old(g.nextId)
    ensures ops == [] ==> g.deps == old(g.deps)
    ensures ops != [] ==> WaitOnLast(old(g.deps), g.deps, Elements(next), ops[|ops| - 1])
    ensures g.config == old(g.config) && g.status == old(g.status) && g.inputs == old(g.inputs)
    ensures g.arrays == old(g.arrays) && g.queued == old(g.queued) && g.log == old(g.log)
  {
    var operations := ops;
    if operations != [] {
      var last := operations[|operations| - 1];
      for i := 0 to |next|
        invariant g.Valid() && g.nextId == old(g.nextId)
        invariant WaitOnLast(old(g.deps), g.deps, Elements(next[..i]), last)
        invariant g.config == old(g.config) && g.status == old(g.status) && g.inputs == old(g.inputs)
        invariant g.arrays == old(g.arrays) && g.queued == old(g.queued) && g.log == old(g.log)
      {
        ChainAwayFrom(old(g.deps), old(g.rank), g.deps, g.rank, Elements(next[..i]), last);
        ghost var before := g.deps;
        g.AddDependency(next[i], last);
        WaitOnLastStep(old(g.deps), before, g.deps, Elements(next[..i]), last, next[i]);
        ElementsPrefix(next, i);
      }
      assert next[..|next|] == next;
    }
    operations := operations + next;
    r := operations;
  }

  /** `then(do:)` on a list with a block that makes one more operation: no operation leaves the
      list as it is; an error the block throws is rethrown, with nothing changed. */
  method ThenSeqBlock(g: OperationGraph, ops: seq<Id>, made: Result<Option<Id>>) returns (r: Result<seq<Id>>)
    requires g.Valid()
    requires made.Success? && made.value.Some? && ops != [] ==>
               var last, op := ops[|ops| - 1], made.value.value;
               last in g.config && op in g.config && !IsFinished(g.status[last])
               && op !in OperationChain(g.deps, g.rank, last)
    modifies g
    ensures g.Valid() && g.nextId == old(g.nextId)
    ensures made.Failure? ==> r == Failure(made.error) && g.deps == old(g.deps)
    ensures made == Success(None) ==> r == Success(ops) && g.deps == old(g.deps)
    ensures made.Success? && made.value.Some? ==> r == Success(ops + [made.value.value])
    ensures made.Success? && made.value.Some? && ops != [] ==>
              var op := made.value.value;
              && DepsOf(g.deps, op) == DepsOf(old(g.deps), op) + {ops[|ops| - 1]}
              && forall y | y != op :: DepsOf(g.deps, y) == DepsOf(old(g.deps), y)
    ensures g.config == old(g.config) && g.status == old(g.status) && g.inputs == old(g.inputs)
    ensures g.arrays == old(g.arrays) && g.queued == old(g.queued) && g.log == old(g.log)
  {
    match made
    case Failure(e) =>
      r := Failure(e);
    case Success(None) =>
      r := Success(ops);
    case Success(Some(op)) =>
      var joined := ThenSeq(g, ops, [op]);
      r := Success(joined);
  }
}
