/** The initialisers of the subclasses (PeakOperation/Core): each registers a new operation of
    its kind, which starts ready, with the default configuration and the `noResult` output, and
    then stores what it was given. */
module Initialisers {
  import opened Results
  import opened Chains
  import opened Lifecycle
  import opened OperationGraphs
  import Mapping
  import Retrying

  /** `BlockResultOperation.init(_:)` with a block that returns a `Result`: the block is kept
      as it is. */
  method NewBlockResult(g: OperationGraph, block: () -> Result<Value>) returns (id: Id)
    requires g.Valid()
    modifies g
    ensures g.Valid() && id == old(g.nextId) && id !in old(g.config)
    ensures g.config == old(g.config)[id := NewConfig(BlockResult(block))]
    ensures g.status == old(g.status)[id := NewStatus()]
    ensures g.inputs == old(g.inputs) && g.arrays == old(g.arrays) && g.deps == old(g.deps)
    ensures g.queued == old(g.queued) && g.log == old(g.log)
  {
    id := g.Register(BlockResult(block));
  }

  /** `BlockResultOperation.init(_:)` with a block that returns a plain value: the block is
      wrapped so that its value becomes a success, and the operation can never fail. */
  method NewBlockValue(g: OperationGraph, block: () -> Value) returns (id: Id)
    requires g.Valid()
    modifies g
    ensures g.Valid() && id == old(g.nextId) && id !in old(g.config)
    ensures id in g.config && g.config[id].kind.BlockResult?
    ensures g.config[id].kind.block() == Success(block())
    ensures g.config == old(g.config)[id := g.config[id]] && g.config[id] == NewConfig(g.config[id].kind)
    ensures g.status == old(g.status)[id := NewStatus()]
    ensures g.inputs == old(g.inputs) && g.arrays == old(g.arrays) && g.deps == old(g.deps)
    ensures g.queued == old(g.queued) && g.log == old(g.log)
  {
    id := g.Register(BlockResult(() => Success(block())));
  }

  /** `MapOperation.init(input:)` (and `BlockMapOperation.init(_:)`, which passes no input):
      the input starts as `noResult`, or as a success holding the given value. */
  method NewMap(g: OperationGraph, m: Mapping.Mapping<Value, Value>, input: Option<Value>) returns (id: Id)
    requires g.Valid()
    modifies g
    ensures g.Valid() && id == old(g.nextId) && id !in old(g.config)
    ensures g.config == old(g.config)[id := NewConfig(Map(m))]
    ensures g.status == old(g.status)[id := NewStatus()]
    ensures g.inputs == old(g.inputs)[id := if input.Some? then Success(input.value) else Failure(NoResult)]
    ensures g.arrays == old(g.arrays) && g.deps == old(g.deps)
    ensures g.queued == old(g.queued) && g.log == old(g.log)
  {
    id := g.Register(Map(m));
    if input.Some? {
      g.SetInput(id, Success(input.value));
    }
  }

  /** `CombineOperation.init(input:)`: the input array starts empty, or as the given array. */
  method NewCombine(g: OperationGraph, input: Option<seq<Result<Value>>>) returns (id: Id)
    requires g.Valid()
    modifies g
    ensures g.Valid() && id == old(g.nextId) && id !in old(g.config)
    ensures g.config == old(g.config)[id := NewConfig(Combine)]
    ensures g.status == old(g.status)[id := NewStatus()]
    ensures g.arrays == old(g.arrays)[id := if input.Some? then input.value else []]
    ensures g.inputs == old(g.inputs) && g.deps == old(g.deps)
    ensures g.queued == old(g.queued) && g.log == old(g.log)
  {
    id := g.Register(Combine);
    if input.Some? {
      g.SetInputs(id, input.value);
    }
  }

  /** A new `RetryingOperation` subclass whose body's k-th run produces `attempt(k)`: its
      strategy starts as `RetryStrategy.none`, and its failure count at 0. */
  method NewRetrying(g: OperationGraph, attempt: nat -> Result<Value>) returns (id: Id)
    requires g.Valid()
    modifies g
    ensures g.Valid() && id == old(g.nextId) && id !in old(g.config)
    ensures g.config == old(g.config)[id := NewConfig(Retrying(Retrying.NoRetry(), attempt))]
    ensures g.status == old(g.status)[id := NewStatus()] && g.status[id].failureCount == 0
    ensures g.inputs == old(g.inputs) && g.arrays == old(g.arrays) && g.deps == old(g.deps)
    ensures g.queued == old(g.queued) && g.log == old(g.log)
  {
    id := g.Register(Retrying(Retrying.NoRetry(), attempt));
  }
}
