/** The operations as objects whose fields change in place: one `OperationGraph` holds every
    operation's configuration and status, the input slots, the dependencies, what has been
    handed to an operation queue, and the log. Its methods do step by step what
    `ConcurrentOperation` and its subclasses do (Sources/PeakOperation/ConcurrentOperation.swift,
    PeakOperation/ConcurrentOperation.swift and PeakOperation/Core), and each is proved to move
    the graph exactly as the matching function of `Lifecycle` says. Operations are known by
    identity because hooks and completion blocks of one operation write the fields of another. */
module OperationGraphs {
  import opened Results
  import opened Chains
  import opened Lifecycle
  import opened Progresses
  import Retrying
  import Mapping

  /** Every operation has a configuration, a status and a rank; the rank witnesses that the
      dependencies are acyclic; every operation has the input slots its `execute()` reads; and
      identities below `nextId` are taken. */
  ghost predicate WorldValid(w: World, rank: map<Id, nat>, nextId: nat) {
    && w.config.Keys == w.status.Keys == rank.Keys
    && Ranked(w.deps, rank)
    && forall id | id in w.config :: id < nextId && HasSlots(w, rank, id)
  }

  /** Every lifecycle step keeps the graph valid. */
  lemma FrameKeepsValid(w: World, w': World, rank: map<Id, nat>, nextId: nat)
    requires WorldValid(w, rank, nextId) && Frame(w, w')
    ensures WorldValid(w', rank, nextId)
  {
    forall id | id in w'.config ensures HasSlots(w', rank, id) {
      assert HasSlots(w, rank, id);
    }
  }

  /** A rank extended by an identity the graph does not mention still witnesses acyclicity. */
  lemma RankedExtend(g: Graph, rank: map<Id, nat>, id: Id)
    requires Ranked(g, rank) && id !in rank
    ensures Ranked(g, rank[id := 0])
  {
    var r := rank[id := 0];
    forall x, d | d in DepsOf(g, x) ensures x in r && d in r && r[d] < r[x] {
      assert x in rank && d in rank && rank[d] < rank[x];
    }
  }

  /** An operation's input slots are still there once the slots and ranks only grew. */
  lemma SlotsExtend(w: World, rank: map<Id, nat>, w': World, rank': map<Id, nat>, k: Id)
    requires k in w.config && HasSlots(w, rank, k)
    requires k in w'.config && w'.config[k] == w.config[k]
    requires w.inputs.Keys <= w'.inputs.Keys && w.arrays.Keys <= w'.arrays.Keys && rank.Keys <= rank'.Keys
    ensures HasSlots(w', rank', k)
  {
  }

  /** The input slot a new operation of `kind` starts with: `noResult` for a map operation and
      `success(())` for a group. */
  function NewInputs(inputs: map<Id, Result<Value>>, kind: Kind, id: Id): map<Id, Result<Value>> {
    if kind.Map? then inputs[id := NoResultYet()]
    else if kind.GroupChain? then inputs[id := Success(Unit)] else inputs
  }

  /** The input array a new operation of `kind` starts with: empty for a combine operation. */
  function NewArrays(arrays: map<Id, seq<Result<Value>>>, kind: Kind, id: Id): map<Id, seq<Result<Value>>> {
    if kind.Combine? then arrays[id := []] else arrays
  }

  /** Adding input slots keeps the graph valid. */
  lemma SlotsKeepValid(w: World, rank: map<Id, nat>, n: nat, inputs: map<Id, Result<Value>>,
                       arrays: map<Id, seq<Result<Value>>>)
    requires WorldValid(w, rank, n) && w.inputs.Keys <= inputs.Keys && w.arrays.Keys <= arrays.Keys
    ensures WorldValid(w.(inputs := inputs, arrays := arrays), rank, n)
  {
    var w' := w.(inputs := inputs, arrays := arrays);
    forall k | k in w.config ensures HasSlots(w', rank, k) {
      SlotsExtend(w, rank, w', rank, k);
    }
  }

  /** Adding a new operation with identity `nextId`, whose input slots are already there, keeps
      the graph valid. */
  lemma RegisterKeepsValid(w: World, rank: map<Id, nat>, id: Id, kind: Kind) returns (w': World)
    requires WorldValid(w, rank, id) && (kind.GroupChain? ==> kind.tail in w.config)
    requires (kind.Map? || kind.GroupChain?) ==> id in w.inputs
    requires kind.Combine? ==> id in w.arrays
    ensures w' == w.(config := w.config[id := NewConfig(kind)], status := w.status[id := NewStatus()])
    ensures WorldValid(w', rank[id := 0], id + 1)
  {
    w' := w.(config := w.config[id := NewConfig(kind)], status := w.status[id := NewStatus()]);
    RankedExtend(w.deps, rank, id);
    forall k | k in w'.config ensures k < id + 1 && HasSlots(w', rank[id := 0], k) {
      if k != id {
        SlotsExtend(w, rank, w', rank[id := 0], k);
      }
    }
  }

  /** A dependency that closes no cycle keeps the graph valid, with the new rank. */
  lemma AddEdgeKeepsValid(w: World, rank: map<Id, nat>, n: nat, x: Id, d: Id) returns (w': World, rank': map<Id, nat>)
    requires WorldValid(w, rank, n) && Known(w, x) && Known(w, d)
    requires x !in OperationChain(w.deps, rank, d)
    ensures w' == w.(deps := AddEdge(w.deps, x, d))
    ensures WorldValid(w', rank', n)
  {
    w' := w.(deps := AddEdge(w.deps, x, d));
    rank' := Rerank(w.deps, rank, x, d);
    RerankRanked(w.deps, rank, x, d);
    forall k | k in w.config ensures HasSlots(w', Rerank(w.deps, rank, x, d), k) {
      SlotsExtend(w, rank, w', Rerank(w.deps, rank, x, d), k);
    }
  }

  /** Removing a dependency keeps the graph valid. */
  lemma RemoveEdgeKeepsValid(w: World, rank: map<Id, nat>, n: nat, x: Id, d: Id)
    requires WorldValid(w, rank, n) && Known(w, x)
    ensures WorldValid(w.(deps := RemoveEdge(w.deps, x, d)), rank, n)
  {
    RemoveEdgeKeepsRanked(w.deps, rank, x, d);
    var w' := w.(deps := RemoveEdge(w.deps, x, d));
    forall k | k in w.config ensures HasSlots(w', rank, k) {
      SlotsExtend(w, rank, w', rank, k);
    }
  }

  /** Changing what is attached to an operation, but not its kind (a retrying operation may
      change its strategy), keeps the graph valid. */
  lemma ReconfigureKeepsValid(w: World, rank: map<Id, nat>, n: nat, id: Id, c: Config)
    requires WorldValid(w, rank, n) && Known(w, id)
    requires c.kind == w.config[id].kind || (c.kind.Retrying? && w.config[id].kind.Retrying?)
    ensures WorldValid(w.(config := w.config[id := c]), rank, n)
  {
    var w' := w.(config := w.config[id := c]);
    forall k | k in w'.config ensures HasSlots(w', rank, k) {
      ReconfiguredSlots(w, rank, id, c, k);
    }
  }

  /** The input slots an operation needs depend only on its kind. */
  lemma ReconfiguredSlots(w: World, rank: map<Id, nat>, id: Id, c: Config, k: Id)
    requires k in w.config && HasSlots(w, rank, k) && id in w.config
    requires c.kind == w.config[id].kind || (c.kind.Retrying? && w.config[id].kind.Retrying?)
    ensures HasSlots(w.(config := w.config[id := c]), rank, k)
  {
  }

  class OperationGraph {
    var config: map<Id, Config>
    var status: map<Id, Status>
    var inputs: map<Id, Result<Value>>
    var arrays: map<Id, seq<Result<Value>>>
    var deps: Graph
    var queued: set<Id>
    var log: seq<Event>
    var nextId: nat
    ghost var rank: map<Id, nat>

    /** The whole graph as a value. */
    ghost function Snapshot(): World
      reads this
    {
      World(config, status, inputs, arrays, deps, queued, log)
    }

    ghost predicate Valid()
      reads this
    {
      WorldValid(Snapshot(), rank, nextId)
    }

    /** An empty graph. */
    constructor()
      ensures Valid() && nextId == 0
      ensures Snapshot() == World(map[], map[], map[], map[], map[], {}, [])
    {
      config, status, inputs, arrays := map[], map[], map[], map[];
      deps, queued, log, nextId := map[], {}, [], 0;
      rank := map[];
    }

    /** One firing of a composed will-start, did-start or did-finish closure. */
    method FireBlocks(id: Id, phase: Phase, tags: seq<nat>)
      modifies this
      ensures Snapshot() == Log(old(Snapshot()), Fires(id, phase, tags))
      ensures rank == old(rank) && nextId == old(nextId)
    {
      ghost var log0 := log;
      for i := 0 to |tags|
        invariant log == log0 + Fires(id, phase, tags[..i])
        invariant config == old(config) && status == old(status) && inputs == old(inputs)
        invariant arrays == old(arrays) && deps == old(deps) && queued == old(queued)
        invariant rank == old(rank) && nextId == old(nextId)
      {
        log := log + [Fired(id, phase, tags[i])];
        assert Fires(id, phase, tags[..i + 1]) == Fires(id, phase, tags[..i]) + [Fired(id, phase, tags[i])];
      }
      assert tags[..|tags|] == tags;
    }

    /** The composed will-finish closure: user blocks and the result-passing hooks, in the
        order they were added. */
    method RunWillFinishHooks(id: Id)
      requires Known(Snapshot(), id)
      modifies this
      ensures Snapshot() == RunHooks(old(Snapshot()), id, old(config[id].willFinish))
      ensures rank == old(rank) && nextId == old(nextId)
    {
      var hooks := config[id].willFinish;
      ghost var w0 := Snapshot();
      for i := 0 to |hooks|
        invariant Snapshot() == RunHooks(w0, id, hooks[..i])
        invariant rank == old(rank) && nextId == old(nextId)
      {
        assert hooks[..i + 1][..i] == hooks[..i];
        RunWillFinishHook(id, hooks[i]);
      }
      assert hooks[..|hooks|] == hooks;
    }

    /** One will-finish hook. */
    method RunWillFinishHook(id: Id, h: Hook)
      requires id in status
      modifies this
      ensures Snapshot() == RunHook(old(Snapshot()), id, h)
      ensures rank == old(rank) && nextId == old(nextId)
    {
      var producer := status[id];
      match h
      case Block(t) =>
        log := log + [Fired(id, WillFinish, t)];
      case PassResult(c) =>
        if !producer.cancelled && c in inputs {
          inputs := inputs[c := producer.output];
        }
      case AppendResult(c) =>
        if !producer.cancelled && c in arrays {
          arrays := arrays[c := arrays[c] + [producer.output]];
        }
    }

    /** The `state` setter, with its progress side effect. */
    method SetState(id: Id, st: State)
      requires Known(Snapshot(), id)
      modifies this
      ensures Snapshot() == Lifecycle.SetState(old(Snapshot()), id, st)
      ensures rank == old(rank) && nextId == old(nextId)
    {
      var s := status[id];
      status := status[id := s.(state := st)];
      if !config[id].managesOwnProgress && st == Finished {
        status := status[id := status[id].(completedUnits := config[id].totalUnits)];
      }
      log := log + [Entered(id, st)];
    }

    /** `ConcurrentOperation.finish()`. */
    method BaseFinish(id: Id, now: int)
      requires Known(Snapshot(), id)
      modifies this
      ensures Snapshot() == Lifecycle.BaseFinish(old(Snapshot()), id, now)
      ensures rank == old(rank) && nextId == old(nextId)
    {
      RunWillFinishHooks(id);
      SetState(id, Finished);
      ghost var w2 := Snapshot();
      StampFinish(id, now);
      FireBlocks(id, DidFinish, config[id].didFinish);
      assert Snapshot().log == w2.log + ([FinishStamped(id, now)] + Fires(id, DidFinish, config[id].didFinish));
    }

    /** Setting `finishDate` and logging it. */
    method StampFinish(id: Id, now: int)
      requires Known(Snapshot(), id)
      modifies this
      ensures Snapshot() == Log(Update(old(Snapshot()), id, old(status[id]).(finishDate := Some(now))), [FinishStamped(id, now)])
      ensures rank == old(rank) && nextId == old(nextId)
    {
      status := status[id := status[id].(finishDate := Some(now))];
      log := log + [FinishStamped(id, now)];
    }

    /** One run of a retrying operation's body. */
    method RunAttempt(id: Id)
      requires Known(Snapshot(), id) && config[id].kind.Retrying?
      modifies this
      ensures Snapshot() == Lifecycle.RunAttempt(old(Snapshot()), id)
      ensures rank == old(rank) && nextId == old(nextId)
    {
      var s := status[id];
      status := status[id := s.(output := config[id].kind.attempt(s.runs), runs := s.runs + 1)];
      log := log + [Executed(id)];
    }

    /** `finish()`, with the retrying override (corrected so that a cancelled operation is
        never retried). */
    method Finish(id: Id, now: int)
      requires Known(Snapshot(), id)
      modifies this
      ensures Snapshot() == Lifecycle.Finish(old(Snapshot()), id, now)
      ensures rank == old(rank) && nextId == old(nextId)
      ensures old(Valid()) ==> Valid()
    {
      ghost var w0 := Snapshot();
      if config[id].kind.Retrying? {
        RetryFinish(id, now);
      } else {
        BaseFinish(id, now);
      }
      if WorldValid(w0, rank, nextId) {
        FrameKeepsValid(w0, Snapshot(), rank, nextId);
      }
    }

    /** `RetryingOperation.finish()`, corrected: a failure counts and asks the strategy; a
        retry, unless the operation was cancelled, re-runs the body in place of finishing. */
    method RetryFinish(id: Id, now: int)
      requires Known(Snapshot(), id) && config[id].kind.Retrying?
      modifies this
      ensures Snapshot() == Lifecycle.RetryFinish(old(Snapshot()), id, now)
      ensures rank == old(rank) && nextId == old(nextId)
    {
      var s := status[id];
      match s.output
      case Failure(e) =>
        var failureCount := s.failureCount + 1;
        status := status[id := s.(failureCount := failureCount)];
        if config[id].kind.strategy(failureCount, e) && !s.cancelled {
          RunAttempt(id);
        } else {
          BaseFinish(id, now);
        }
      case Success(_) =>
        assert status[id := s] == status;
        BaseFinish(id, now);
    }

    /** Set the output, then `finish()`: the end of the `execute()` of a block-result, map or
        combine operation, and of a group with a failed input. */
    method SetOutputAndFinish(id: Id, r: Result<Value>, now: int)
      requires Known(Snapshot(), id)
      modifies this
      ensures Snapshot() == Lifecycle.BaseFinish(SetOutput(old(Snapshot()), id, r), id, now)
      ensures rank == old(rank) && nextId == old(nextId)
    {
      status := status[id := status[id].(output := r)];
      BaseFinish(id, now);
    }

    /** The body of `execute()` of each subclass other than the retrying one. */
    method ExecuteBody(id: Id, now: int)
      requires Valid() && Known(Snapshot(), id) && !config[id].kind.Retrying?
      modifies this
      ensures Snapshot() == Lifecycle.ExecuteBody(old(Snapshot()), old(rank), id, now)
      ensures rank == old(rank) && nextId == old(nextId)
    {
      assert HasSlots(Snapshot(), rank, id);
      match config[id].kind
      case Custom =>
      case BlockResult(block) =>
        SetOutputAndFinish(id, block(), now);
      case Map(m) =>
        SetOutputAndFinish(id, Mapping.MapResult(m, inputs[id]), now);
      case Combine =>
        SetOutputAndFinish(id, CombineOutput(arrays[id]), now);
      case GroupChain(tail) =>
        match inputs[id]
        case Failure(e) =>
          SetOutputAndFinish(id, Failure(e), now);
        case Success(_) =>
          EnqueueWrapped(id, tail);
    }

    /** A group's `execute()` on a successful input: the chain of the wrapped operation goes on
        the group's internal queue. */
    method EnqueueWrapped(id: Id, tail: Id)
      requires Valid() && Known(Snapshot(), id) && tail in rank
      modifies this
      ensures var chain := OperationChain(old(deps), old(rank), tail);
              Snapshot() == Update(old(Snapshot()), id, old(status[id]).(internalQueue := old(status[id]).internalQueue + chain))
                              .(queued := old(queued) + chain)
      ensures rank == old(rank) && nextId == old(nextId)
    {
      var chain := OperationChain(deps, rank, tail);
      status := status[id := status[id].(internalQueue := status[id].internalQueue + chain)];
      queued := queued + chain;
    }

    /** `execute()`: a retrying operation runs its body once; any other logs the run and does
        what its subclass does. */
    method Execute(id: Id, now: int)
      requires Valid() && Known(Snapshot(), id)
      modifies this
      ensures Snapshot() == Lifecycle.Execute(old(Snapshot()), old(rank), id, now)
      ensures rank == old(rank) && nextId == old(nextId)
    {
      if config[id].kind.Retrying? {
        RunAttempt(id);
      } else {
        ghost var w0 := Snapshot();
        log := log + [Executed(id)];
        FrameKeepsValid(w0, Snapshot(), rank, nextId);
        ExecuteBody(id, now);
      }
    }

    /** The part of `start()` before `execute()`. */
    method Begin(id: Id, now: int)
      requires Known(Snapshot(), id)
      modifies this
      ensures Snapshot() == Lifecycle.Begin(old(Snapshot()), id, now)
      ensures rank == old(rank) && nextId == old(nextId)
    {
      FireBlocks(id, WillStart, config[id].willStart);
      SetState(id, Executing);
      status := status[id := status[id].(startDate := Some(now))];
      log := log + [StartStamped(id, now)];
      FireBlocks(id, DidStart, config[id].didStart);
    }

    /** `start()`, called by the queue once the operation is ready (Foundation refuses to start
        an operation that is not). */
    method Start(id: Id, now: int)
      requires Valid() && IsReady(Snapshot(), id) && id in config
      modifies this
      ensures Valid() && rank == old(rank) && nextId == old(nextId)
      ensures Snapshot() == Lifecycle.Start(old(Snapshot()), old(rank), id, now)
    {
      ghost var w0 := Snapshot();
      assert HasSlots(w0, rank, id);
      if status[id].cancelled {
        Finish(id, now);
      } else {
        Begin(id, now);
        FrameKeepsValid(w0, Snapshot(), rank, nextId);
        Execute(id, now);
      }
      FrameKeepsValid(w0, Snapshot(), rank, nextId);
    }

    /** `cancel()`: `cancelAllOperations()` on the internal queue (the finished operations have
        already left it), then the operation's own flag. */
    method Cancel(id: Id)
      requires Known(Snapshot(), id)
      modifies this
      ensures Snapshot() == Lifecycle.Cancel(old(Snapshot()), id)
      ensures rank == old(rank) && nextId == old(nextId)
      ensures old(Valid()) ==> Valid()
    {
      ghost var w0 := Snapshot();
      var reach := CancelReach(status, id, |status|);
      status := map k | k in status :: if k in reach && !IsFinished(status[k]) then status[k].(cancelled := true) else status[k];
      assert Snapshot() == Lifecycle.Cancel(w0, id);
      if WorldValid(w0, rank, nextId) {
        FrameKeepsValid(w0, Snapshot(), rank, nextId);
      }
    }

    /** One piece of the composed completion block. */
    method CompletionStep(id: Id, b: CompletionBlock, now: int)
      requires Known(Snapshot(), id)
      modifies this
      ensures Snapshot() == Lifecycle.CompletionStep(old(Snapshot()), id, b, now)
      ensures rank == old(rank) && nextId == old(nextId)
    {
      match b
      case Plain(t) =>
        log := log + [Fired(id, Completion, t)];
      case ResultBlock(t) =>
        log := log + [Delivered(id, t, status[id].output)];
      case GroupCompletion(group) =>
        if group in config && group in status {
          var output := status[id].output;
          status := status[group := status[group].(output := GroupOutput(output))];
          Finish(group, now);
        }
    }

    /** What Foundation does once an operation has finished: run its completion block, whose
        pieces run in the order they were added. */
    method RunCompletion(id: Id, now: int)
      requires Valid() && Known(Snapshot(), id) && IsFinished(status[id])
      modifies this
      ensures Valid() && rank == old(rank) && nextId == old(nextId)
      ensures Snapshot() == Lifecycle.RunCompletion(old(Snapshot()), id, now)
    {
      ghost var w0 := Snapshot();
      var blocks := config[id].completion;
      for i := 0 to |blocks|
        invariant Snapshot() == RunCompletionBlocks(w0, id, blocks[..i], now)
        invariant rank == old(rank) && nextId == old(nextId)
      {
        assert blocks[..i + 1][..i] == blocks[..i];
        CompletionStep(id, blocks[i], now);
      }
      assert blocks[..|blocks|] == blocks;
      FrameKeepsValid(w0, Snapshot(), rank, nextId);
    }

    /** `addWillStartBlock`: the new block runs after every earlier one. */
    method AddWillStartBlock(id: Id, tag: nat)
      requires Valid() && id in config
      modifies this
      ensures Valid() && rank == old(rank) && nextId == old(nextId)
      ensures config == old(config)[id := old(config[id]).(willStart := old(config[id]).willStart + [tag])]
      ensures status == old(status) && inputs == old(inputs) && arrays == old(arrays) && deps == old(deps)
      ensures queued == old(queued) && log == old(log)
    {
      ReconfigureKeepsValid(Snapshot(), rank, nextId, id, config[id].(willStart := config[id].willStart + [tag]));
      config := config[id := config[id].(willStart := config[id].willStart + [tag])];
    }

    /** `addDidStartBlock`: the new block runs after every earlier one. */
    method AddDidStartBlock(id: Id, tag: nat)
      requires Valid() && id in config
      modifies this
      ensures Valid() && rank == old(rank) && nextId == old(nextId)
      ensures config == old(config)[id := old(config[id]).(didStart := old(config[id]).didStart + [tag])]
      ensures status == old(status) && inputs == old(inputs) && arrays == old(arrays) && deps == old(deps)
      ensures queued == old(queued) && log == old(log)
    {
      ReconfigureKeepsValid(Snapshot(), rank, nextId, id, config[id].(didStart := config[id].didStart + [tag]));
      config := config[id := config[id].(didStart := config[id].didStart + [tag])];
    }

    /** `addWillFinishBlock`: the new hook runs after every earlier one. The result-passing
        hooks of `passesResult` are added the same way. */
    method AddWillFinishBlock(id: Id, h: Hook)
      requires Valid() && id in config
      modifies this
      ensures Valid() && rank == old(rank) && nextId == old(nextId)
      ensures config == old(config)[id := old(config[id]).(willFinish := old(config[id]).willFinish + [h])]
      ensures status == old(status) && inputs == old(inputs) && arrays == old(arrays) && deps == old(deps)
      ensures queued == old(queued) && log == old(log)
    {
      ReconfigureKeepsValid(Snapshot(), rank, nextId, id, config[id].(willFinish := config[id].willFinish + [h]));
      config := config[id := config[id].(willFinish := config[id].willFinish + [h])];
    }

    /** `addDidFinishBlock`: the new block runs after every earlier one. */
    method AddDidFinishBlock(id: Id, tag: nat)
      requires Valid() && id in config
      modifies this
      ensures Valid() && rank == old(rank) && nextId == old(nextId)
      ensures config == old(config)[id := old(config[id]).(didFinish := old(config[id]).didFinish + [tag])]
      ensures status == old(status) && inputs == old(inputs) && arrays == old(arrays) && deps == old(deps)
      ensures queued == old(queued) && log == old(log)
    {
      ReconfigureKeepsValid(Snapshot(), rank, nextId, id, config[id].(didFinish := config[id].didFinish + [tag]));
      config := config[id := config[id].(didFinish := config[id].didFinish + [tag])];
    }

    /** Append a piece to the composed completion block, as `addCompletionBlock` and
        `addResultBlock` do. */
    method AddCompletion(id: Id, b: CompletionBlock)
      requires Valid() && id in config
      modifies this
      ensures Valid() && rank == old(rank) && nextId == old(nextId)
      ensures config == old(config)[id := old(config[id]).(completion := old(config[id]).completion + [b])]
      ensures status == old(status) && inputs == old(inputs) && arrays == old(arrays) && deps == old(deps)
      ensures queued == old(queued) && log == old(log)
    {
      ReconfigureKeepsValid(Snapshot(), rank, nextId, id, config[id].(completion := config[id].completion + [b]));
      config := config[id := config[id].(completion := config[id].completion + [b])];
    }

    /** The input slot a new operation of `kind` starts with, before the operation itself. */
    method ReserveSlots(kind: Kind)
      requires Valid()
      modifies this
      ensures Valid() && rank == old(rank) && nextId == old(nextId)
      ensures inputs == NewInputs(old(inputs), kind, nextId) && arrays == NewArrays(old(arrays), kind, nextId)
      ensures config == old(config) && status == old(status) && deps == old(deps)
      ensures queued == old(queued) && log == old(log)
    {
      ghost var w0 := Snapshot();
      if kind.Map? {
        inputs := inputs[nextId := NoResultYet()];
      } else if kind.GroupChain? {
        inputs := inputs[nextId := Success(Unit)];
      } else if kind.Combine? {
        arrays := arrays[nextId := []];
      }
      SlotsKeepValid(w0, rank, nextId, inputs, arrays);
      assert Snapshot() == w0.(inputs := inputs, arrays := arrays);
    }

    /** The operation itself, once its input slots are there. */
    method AddOperation(kind: Kind) returns (id: Id)
      requires Valid() && (kind.GroupChain? ==> kind.tail in config)
      requires (kind.Map? || kind.GroupChain?) ==> nextId in inputs
      requires kind.Combine? ==> nextId in arrays
      modifies this
      ensures Valid() && id == old(nextId) && nextId == old(nextId) + 1 && rank == old(rank)[id := 0]
      ensures Snapshot() == old(Snapshot()).(config := old(config)[id := NewConfig(kind)], status := old(status)[id := NewStatus()])
    {
      id := nextId;
      ghost var w' := RegisterKeepsValid(Snapshot(), rank, id, kind);
      Insert(kind);
    }

    /** The bookkeeping of AddOperation: the entries of the new operation, the next identity. */
    method Insert(kind: Kind)
      modifies this
      ensures nextId == old(nextId) + 1 && rank == old(rank)[old(nextId) := 0]
      ensures Snapshot() == old(Snapshot()).(config := old(config)[old(nextId) := NewConfig(kind)],
                                             status := old(status)[old(nextId) := NewStatus()])
    {
      config, status := config[nextId := NewConfig(kind)], status[nextId := NewStatus()];
      nextId, rank := nextId + 1, rank[nextId := 0];
    }

    /** A new operation of the given kind, with a fresh identity: ready, not cancelled, output
        `noResult`, and the input slot its subclass starts with (`noResult` for a map operation,
        an empty array for a combine operation, `success(())` for a group). */
    method Register(kind: Kind) returns (id: Id)
      requires Valid() && (kind.GroupChain? ==> kind.tail in config)
      modifies this
      ensures Valid()
      ensures id == old(nextId) && nextId == old(nextId) + 1 && id !in old(config)
      ensures config == old(config)[id := NewConfig(kind)] && status == old(status)[id := NewStatus()]
      ensures inputs == NewInputs(old(inputs), kind, id) && arrays == NewArrays(old(arrays), kind, id)
      ensures deps == old(deps) && queued == old(queued) && log == old(log)
      ensures rank == old(rank)[id := 0]
    {
      ReserveSlots(kind);
      id := AddOperation(kind);
    }

    /** Foundation's `addDependency(_:)`: `x` now waits for `d`. The edge must close no cycle:
        the library's `operationChain` recurses forever on one. */
    method AddDependency(x: Id, d: Id)
      requires Valid() && x in config && d in config
      requires x !in OperationChain(deps, rank, d)
      modifies this
      ensures Valid() && nextId == old(nextId)
      ensures deps == AddEdge(old(deps), x, d)
      ensures config == old(config) && status == old(status) && inputs == old(inputs) && arrays == old(arrays)
      ensures queued == old(queued) && log == old(log)
    {
      ghost var w1, r1 := AddEdgeKeepsValid(Snapshot(), rank, nextId, x, d);
      rank := r1;
      deps := AddEdge(deps, x, d);
      assert Snapshot() == w1;
    }

    /** Foundation's `removeDependency(_:)`. */
    method RemoveDependency(x: Id, d: Id)
      requires Valid() && x in config
      modifies this
      ensures Valid() && nextId == old(nextId) && rank == old(rank) && deps == RemoveEdge(old(deps), x, d)
      ensures config == old(config) && status == old(status) && inputs == old(inputs) && arrays == old(arrays)
      ensures queued == old(queued) && log == old(log)
    {
      RemoveEdgeKeepsValid(Snapshot(), rank, nextId, x, d);
      deps := RemoveEdge(deps, x, d);
    }

    /** `addOperations(_:waitUntilFinished: false)` on an operation queue: the operations are
        handed over, to be started once ready. */
    method AddOperations(ops: set<Id>)
      requires Valid()
      modifies this
      ensures Valid() && rank == old(rank) && nextId == old(nextId)
      ensures queued == old(queued) + ops
      ensures config == old(config) && status == old(status) && inputs == old(inputs) && arrays == old(arrays)
      ensures deps == old(deps) && log == old(log)
    {
      ghost var w0 := Snapshot();
      queued := queued + ops;
      FrameKeepsValid(w0, Snapshot(), rank, nextId);
    }

    /** The bookkeeping of the setters below: one operation's configuration is replaced. */
    method Reconfigure(id: Id, c: Config)
      modifies this
      ensures rank == old(rank) && nextId == old(nextId)
      ensures Snapshot() == old(Snapshot()).(config := old(config)[id := c])
    {
      config := config[id := c];
    }

    /** Setting `estimatedExecutionSeconds`. */
    method SetEstimatedSeconds(id: Id, seconds: int)
      requires Valid() && id in config
      modifies this
      ensures Valid() && rank == old(rank) && nextId == old(nextId)
      ensures config == old(config)[id := old(config[id]).(estimatedSeconds := seconds)]
      ensures status == old(status) && inputs == old(inputs) && arrays == old(arrays) && deps == old(deps)
      ensures queued == old(queued) && log == old(log)
    {
      var c := config[id].(estimatedSeconds := seconds);
      ReconfigureKeepsValid(Snapshot(), rank, nextId, id, c);
      Reconfigure(id, c);
    }

    /** The operation takes over its own progress (`managesOwnProgress`), and `progress` is
        replaced: its unit count and children. */
    method SetProgress(id: Id, p: Progress)
      requires Valid() && id in config
      modifies this
      ensures Valid() && rank == old(rank) && nextId == old(nextId)
      ensures config == old(config)[id := old(config[id]).(managesOwnProgress := true,
                                         totalUnits := p.total, progressChildren := p.children)]
      ensures status == old(status) && inputs == old(inputs) && arrays == old(arrays) && deps == old(deps)
      ensures queued == old(queued) && log == old(log)
    {
      var c := config[id].(managesOwnProgress := true, totalUnits := p.total, progressChildren := p.children);
      ReconfigureKeepsValid(Snapshot(), rank, nextId, id, c);
      Reconfigure(id, c);
    }

    /** Setting `retryStrategy` of a retrying operation. */
    method SetRetryStrategy(id: Id, strategy: Retrying.StrategyBlock)
      requires Valid() && id in config && config[id].kind.Retrying?
      modifies this
      ensures Valid() && rank == old(rank) && nextId == old(nextId)
      ensures config == old(config)[id := old(config[id]).(kind := old(config[id]).kind.(strategy := strategy))]
      ensures status == old(status) && inputs == old(inputs) && arrays == old(arrays) && deps == old(deps)
      ensures queued == old(queued) && log == old(log)
    {
      var c := config[id].(kind := config[id].kind.(strategy := strategy));
      ReconfigureKeepsValid(Snapshot(), rank, nextId, id, c);
      Reconfigure(id, c);
    }

    /** Setting the `input` of an operation that consumes one result. */
    method SetInput(id: Id, r: Result<Value>)
      requires Valid() && id in inputs
      modifies this
      ensures Valid() && rank == old(rank) && nextId == old(nextId)
      ensures inputs == old(inputs)[id := r]
      ensures config == old(config) && status == old(status) && arrays == old(arrays) && deps == old(deps)
      ensures queued == old(queued) && log == old(log)
    {
      ghost var w0 := Snapshot();
      inputs := inputs[id := r];
      FrameKeepsValid(w0, Snapshot(), rank, nextId);
    }

    /** Setting the `input` array of an operation that consumes several results. */
    method SetInputs(id: Id, rs: seq<Result<Value>>)
      requires Valid() && id in arrays
      modifies this
      ensures Valid() && rank == old(rank) && nextId == old(nextId)
      ensures arrays == old(arrays)[id := rs]
      ensures config == old(config) && status == old(status) && inputs == old(inputs) && deps == old(deps)
      ensures queued == old(queued) && log == old(log)
    {
      ghost var w0 := Snapshot();
      arrays := arrays[id := rs];
      FrameKeepsValid(w0, Snapshot(), rank, nextId);
    }
  }
}
