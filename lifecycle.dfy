/** The life of a `ConcurrentOperation` (Sources/PeakOperation/ConcurrentOperation.swift and the
    weight-based progress of PeakOperation/ConcurrentOperation.swift) and of its result-producing
    subclasses, as pure functions on a `World`: every operation by identity, the dependency graph,
    and a log of what user-visible code ran, in order.

    Hooks and completion blocks reach other operations (a will-finish hook writes a consumer's
    input; a group's result block finishes the group), so the operations are kept in one map keyed
    by identity rather than as separate objects. The imperative methods in `OperationGraphs` are
    proved to move a `World` exactly as these functions say. */
module Lifecycle {
  import opened Results
  import opened Chains
  import opened Progresses
  import Mapping
  import Combining
  import Retrying

  /** The values that flow between operations. The source is generic in them; the model needs
      them to be one type so that any producer can be wired to any consumer. */
  datatype Value = Unit | Flag(b: bool) | Number(n: int) | Text(s: string) | List(items: seq<Value>)

  /** `OperationState`. */
  datatype State = Ready | Executing | Finished

  /** The `Int` raw value of an `OperationState`, as `description` prints it. */
  function RawValue(s: State): (n: nat)
    ensures s.Ready? <==> n == 0
    ensures s.Executing? <==> n == 1
    ensures s.Finished? <==> n == 2
  {
    match s
    case Ready => 0
    case Executing => 1
    case Finished => 2
  }

  /** Different states have different raw values. */
  lemma RawValueInjective(s: State, t: State)
    requires RawValue(s) == RawValue(t)
    ensures s == t
  {
  }

  /** The four hook slots and the completion block. */
  datatype Phase = WillStart | DidStart | WillFinish | DidFinish | Completion

  /** A piece of the composed will-finish closure: a user block (known by a tag), or the
      hook `passesResult` installs to copy the output into a consumer's input, or the one that
      appends it to a consumer's input array. */
  datatype Hook = Block(tag: nat) | PassResult(consumer: Id) | AppendResult(consumer: Id)

  /** A piece of the composed `completionBlock`: a plain block, a result block (which receives
      the output at the time it runs), or the result block a `GroupChainOperation` installs on
      the operation it wraps. */
  datatype CompletionBlock = Plain(tag: nat) | ResultBlock(tag: nat) | GroupCompletion(group: Id)

  /** Which subclass an operation is, with what it was built from.
      - Custom: a subclass with its own `execute()`, which calls `finish()` some time later;
      - BlockResult: `BlockResultOperation` and its block;
      - Map: `MapOperation` / `BlockMapOperation`;
      - Combine: `CombineOperation`;
      - Retrying: `RetryingOperation`, with its `retryStrategy` and a body whose k-th run
        (from 0) sets the output to `attempt(k)` and later calls `finish()`;
      - GroupChain: `GroupChainOperation` wrapping the operation `tail`. */
  datatype Kind =
    | Custom
    | BlockResult(block: () -> Result<Value>)
    | Map(mapping: Mapping.Mapping<Value, Value>)
    | Combine
    | Retrying(strategy: Retrying.StrategyBlock, attempt: nat -> Result<Value>)
    | GroupChain(tail: Id)

  /** What an operation is and what is attached to it: its kind, name, progress set-up and
      hooks. Only building and wiring operations changes these; running them never does. */
  datatype Config = Config(
    kind: Kind,
    name: Option<string>,
    totalUnits: int,
    managesOwnProgress: bool,
    estimatedSeconds: int,
    progressChildren: seq<Child>,
    willStart: seq<nat>,
    didStart: seq<nat>,
    willFinish: seq<Hook>,
    didFinish: seq<nat>,
    completion: seq<CompletionBlock>)

  /** What running an operation changes. Times are abstract integers. */
  datatype Status = Status(
    state: State,
    cancelled: bool,
    startDate: Option<int>,
    finishDate: Option<int>,
    completedUnits: int,
    output: Result<Value>,
    failureCount: nat,
    runs: nat,
    internalQueue: set<Id>)

  /** What the log records: a hook block or completion block firing, a result block receiving a
      result, a change of state, a timestamp, and a run of the operation's own `execute()`. */
  datatype Event =
    | Fired(op: Id, phase: Phase, tag: nat)
    | Delivered(op: Id, tag: nat, result: Result<Value>)
    | Entered(op: Id, state: State)
    | StartStamped(op: Id, time: int)
    | FinishStamped(op: Id, time: int)
    | Executed(op: Id)

  /** Every operation's configuration and status; the `input` of every operation that consumes
      one result and the `input` array of every operation that consumes several (kept apart
      because other operations' hooks write them); the dependencies; the operations handed to
      an operation queue; and the log. */
  datatype World = World(
    config: map<Id, Config>,
    status: map<Id, Status>,
    inputs: map<Id, Result<Value>>,
    arrays: map<Id, seq<Result<Value>>>,
    deps: Graph,
    queued: set<Id>,
    log: seq<Event>)

  /** `progress = Progress(totalUnitCount: 1)` in PeakOperation/ConcurrentOperation.swift. */
  const DefaultUnits: int := 1

  /** A new operation of the given kind: one unit of progress that it does not manage itself,
      one estimated second, and no hooks. */
  function NewConfig(kind: Kind): (c: Config)
    ensures c.kind == kind && c.name.None?
    ensures c.totalUnits == 1 && !c.managesOwnProgress && c.estimatedSeconds == 1
    ensures c.willStart == c.didStart == c.didFinish == [] && c.willFinish == [] && c.completion == []
  {
    Config(kind, None, DefaultUnits, false, 1, [], [], [], [], [], [])
  }

  /** A new operation is ready, not cancelled, has no dates and nothing completed, and its
      output is the `noResult` placeholder. */
  function NewStatus(): (s: Status)
    ensures s.state == Ready && !s.cancelled && s.startDate.None? && s.finishDate.None?
    ensures s.completedUnits == 0 && s.output == Failure(NoResult) && s.failureCount == 0 && s.runs == 0
  {
    Status(Ready, false, None, None, 0, NoResultYet(), 0, 0, {})
  }

  /** `isExecuting` and `isFinished` are read off the state alone, so they never hold together
      and neither holds of a `ready` operation. */
  predicate IsExecuting(s: Status)
    ensures IsExecuting(s) ==> s.state != Ready && s.state != Finished
  {
    s.state == Executing
  }

  predicate IsFinished(s: Status)
    ensures IsFinished(s) ==> s.state != Ready && !IsExecuting(s)
  {
    s.state == Finished
  }

  /** Foundation's own readiness: every dependency finished, or the operation cancelled (a
      cancelled operation no longer waits for its dependencies). */
  predicate BaseReady(w: World, id: Id) {
    id in w.status &&
    (w.status[id].cancelled || forall d | d in DepsOf(w.deps, id) :: d in w.status && IsFinished(w.status[d]))
  }

  /** `isReady`: state `ready` and the base readiness. */
  predicate IsReady(w: World, id: Id)
    ensures IsReady(w, id) ==> id in w.status && !IsExecuting(w.status[id]) && !IsFinished(w.status[id])
  {
    id in w.status && w.status[id].state == Ready && BaseReady(w, id)
  }

  /** A name, or `fallback` when there is none: `operationName` falls back to
      `"Unnamed Operation"`, and `description` prints `nil`. */
  function NameOr(name: Option<string>, fallback: string): (s: string)
    ensures name.Some? ==> s == name.value
    ensures name.None? ==> s == fallback
  {
    match name
    case Some(n) => n
    case None => fallback
  }

  /** The name `operationName` gives an operation without one. */
  const UnnamedOperation := "Unnamed Operation"

  /** The printed digit of a state's raw value. */
  function StateDigit(s: State): (c: char)
    ensures c as int - '0' as int == RawValue(s)
  {
    "012"[RawValue(s)]
  }

  /** `description`: the dynamic type's name, then the name (or `nil`) between `(name: '` and
      `'`, then `, state: `, the raw state's digit and `)`. */
  function Description(typeName: string, name: Option<string>, state: State): (s: string)
    ensures |s| == |typeName| + |NameOr(name, "nil")| + 20
    ensures s[..|typeName|] == typeName
    ensures s[|typeName|..|typeName| + 8] == "(name: '"
    ensures s[|typeName| + 8..|s| - 12] == NameOr(name, "nil")
    ensures s[|s| - 12..] == "', state: " + [StateDigit(state), ')']
  {
    typeName + "(name: '" + NameOr(name, "nil") + "', state: " + [StateDigit(state)] + ")"
  }

  /** For one type, the description gives back the printed name and the state. */
  lemma DescriptionDetermines(typeName: string, n1: Option<string>, a: State, n2: Option<string>, b: State)
    requires Description(typeName, n1, a) == Description(typeName, n2, b)
    ensures NameOr(n1, "nil") == NameOr(n2, "nil") && a == b
  {
    var d := Description(typeName, n1, a);
    assert |NameOr(n1, "nil")| == |NameOr(n2, "nil")|;
    assert d[|d| - 2] == StateDigit(a) && d[|d| - 2] == StateDigit(b);
  }

  /** Two operations in different states never print alike. */
  lemma DescriptionShowsState(typeName: string, name: Option<string>, a: State, b: State)
    requires a != b
    ensures Description(typeName, name, a) != Description(typeName, name, b)
  {
    var da := Description(typeName, name, a);
    var db := Description(typeName, name, b);
    assert da[|da| - 2] != db[|db| - 2];
  }

  /** `executionTime`: 0 before the start; then the time from the start to the finish, or to
      `now` while the operation has not finished. */
  function ExecutionTime(op: Status, now: int): (t: int)
    ensures op.startDate.None? ==> t == 0
    ensures op.startDate.Some? && op.finishDate.Some? ==> t == op.finishDate.value - op.startDate.value
    ensures op.startDate.Some? && op.finishDate.None? ==> t == now - op.startDate.value
  {
    match op.startDate
    case None => 0
    case Some(start) =>
      var end := match op.finishDate case Some(f) => f case None => now;
      end - start
  }

  // ---------------------------------------------------------------------------------------
  // Hooks

  /** One firing of a composed hook closure: each block it was built from, earliest first. */
  function Fires(id: Id, phase: Phase, tags: seq<nat>): (es: seq<Event>)
    ensures |es| == |tags|
    ensures forall i | 0 <= i < |tags| :: es[i] == Fired(id, phase, tags[i])
  {
    seq(|tags|, i requires 0 <= i < |tags| => Fired(id, phase, tags[i]))
  }

  /** Adding a block to a hook keeps the earlier blocks and runs them first, then the new one. */
  lemma FiresAfterAdd(id: Id, phase: Phase, tags: seq<nat>, t: nat)
    ensures Fires(id, phase, tags + [t]) == Fires(id, phase, tags) + [Fired(id, phase, t)]
  {
  }

  /** The events the user blocks among some will-finish hooks log. */
  function HookEvents(id: Id, hooks: seq<Hook>): seq<Event> {
    if hooks == [] then []
    else
      var last := hooks[|hooks| - 1];
      HookEvents(id, hooks[..|hooks| - 1]) + (if last.Block? then [Fired(id, WillFinish, last.tag)] else [])
  }

  /** Nothing but the input slots of operations changed. */
  ghost predicate OnlyInputsChanged(w: World, w': World) {
    && w'.config == w.config && w'.status == w.status && w'.deps == w.deps && w'.queued == w.queued
    && w'.inputs.Keys == w.inputs.Keys && w'.arrays.Keys == w.arrays.Keys
  }

  /** One will-finish hook of operation `id`. The result-passing hooks do nothing when the
      producer was cancelled. */
  function RunHook(w: World, id: Id, h: Hook): (w': World)
    requires id in w.status
    ensures OnlyInputsChanged(w, w')
    ensures w'.log == w.log + (if h.Block? then [Fired(id, WillFinish, h.tag)] else [])
  {
    var producer := w.status[id];
    match h
    case Block(t) => w.(log := w.log + [Fired(id, WillFinish, t)])
    case PassResult(c) =>
      if !producer.cancelled && c in w.inputs
      then w.(inputs := w.inputs[c := producer.output])
      else w
    case AppendResult(c) =>
      if !producer.cancelled && c in w.arrays
      then w.(arrays := w.arrays[c := w.arrays[c] + [producer.output]])
      else w
  }

  /** The composed will-finish closure: every hook in the order added. */
  function RunHooks(w: World, id: Id, hooks: seq<Hook>): (w': World)
    requires id in w.status
    ensures OnlyInputsChanged(w, w')
    ensures w'.log == w.log + HookEvents(id, hooks)
    decreases |hooks|
  {
    if hooks == [] then w
    else RunHook(RunHooks(w, id, hooks[..|hooks| - 1]), id, hooks[|hooks| - 1])
  }

  /** Membership in a non-empty sequence: in the front part or the last element. */
  lemma InLastOrFront<T>(s: seq<T>, x: T)
    requires s != []
    ensures x in s <==> x in s[..|s| - 1] || s[|s| - 1] == x
    ensures multiset(s)[x] == multiset(s[..|s| - 1])[x] + (if s[|s| - 1] == x then 1 else 0)
  {
    assert s == s[..|s| - 1] + [s[|s| - 1]];
  }

  /** `input` of a consumer after a producer's will-finish hooks: the producer's output when a
      `passesResult` hook for it is among them and the producer was not cancelled, and
      untouched otherwise. */
  lemma {:induction false} PassResultDelivers(w: World, id: Id, hooks: seq<Hook>, c: Id)
    requires id in w.status && c in w.inputs
    ensures RunHooks(w, id, hooks).inputs[c]
         == if !w.status[id].cancelled && PassResult(c) in hooks then w.status[id].output else w.inputs[c]
    decreases |hooks|
  {
    if hooks != [] {
      PassResultDelivers(w, id, hooks[..|hooks| - 1], c);
      InLastOrFront(hooks, PassResult(c));
      PassStep(RunHooks(w, id, hooks[..|hooks| - 1]), id, hooks[|hooks| - 1], c);
    }
  }

  /** One hook sets the input of `c` to the producer's output exactly when it is a passing hook
      for `c` and the producer was not cancelled. */
  lemma PassStep(w: World, id: Id, h: Hook, c: Id)
    requires id in w.status && c in w.inputs
    ensures RunHook(w, id, h).inputs[c]
         == if !w.status[id].cancelled && h == PassResult(c) then w.status[id].output else w.inputs[c]
  {
  }

  /** `n` copies of a result. */
  function Copies(r: Result<Value>, n: nat): (rs: seq<Result<Value>>)
    ensures |rs| == n
  {
    if n == 0 then [] else Copies(r, n - 1) + [r]
  }

  /** `input` array of a fan-in consumer after a producer's will-finish hooks: one more copy of
      the producer's output per appending hook for it, unless the producer was cancelled. */
  lemma {:induction false} AppendResultDelivers(w: World, id: Id, hooks: seq<Hook>, c: Id)
    requires id in w.status && c in w.arrays
    ensures RunHooks(w, id, hooks).arrays[c]
         == w.arrays[c] + (if w.status[id].cancelled then [] else Copies(w.status[id].output, multiset(hooks)[AppendResult(c)]))
    decreases |hooks|
  {
    if hooks != [] {
      var front := hooks[..|hooks| - 1];
      var last := hooks[|hooks| - 1];
      AppendResultDelivers(w, id, front, c);
      InLastOrFront(hooks, AppendResult(c));
      var mid := RunHooks(w, id, front);
      AppendStep(mid, id, last, c);
      if w.status[id].cancelled {
        assert mid.arrays[c] == w.arrays[c] + [];
      }
    }
  }

  /** One hook appends the producer's output to `c` exactly when it is an appending hook for
      `c` and the producer was not cancelled. */
  lemma AppendStep(w: World, id: Id, h: Hook, c: Id)
    requires id in w.status && c in w.arrays
    ensures RunHook(w, id, h).arrays[c]
         == w.arrays[c] + (if !w.status[id].cancelled && h == AppendResult(c) then [w.status[id].output] else [])
  {
    if w.status[id].cancelled || h != AppendResult(c) {
      assert RunHook(w, id, h).arrays[c] == w.arrays[c];
    }
  }


  // ---------------------------------------------------------------------------------------
  // State changes

  /** What every step keeps: the configuration, which operations and input slots exist, the
      dependencies; the queued set and the log only grow. */
  ghost predicate Frame(w: World, w': World) {
    && w'.config == w.config && w'.status.Keys == w.status.Keys
    && w'.inputs.Keys == w.inputs.Keys && w'.arrays.Keys == w.arrays.Keys
    && w'.deps == w.deps && w.queued <= w'.queued && w.log <= w'.log
  }

  /** Operation `id` is known. */
  predicate Known(w: World, id: Id) {
    id in w.config && id in w.status
  }

  /** The `state` setter: store the state and, on entering `finished` without
      `managesOwnProgress`, set `completedUnitCount` to `totalUnitCount`. */
  function SetState(w: World, id: Id, st: State): (w': World)
    requires Known(w, id)
    ensures Frame(w, w') && Known(w', id) && w'.queued == w.queued && w'.inputs == w.inputs && w'.arrays == w.arrays
    ensures w'.log == w.log + [Entered(id, st)]
    ensures forall k | k in w.status && k != id :: w'.status[k] == w.status[k]
    ensures w'.status[id] == w.status[id].(state := st, completedUnits := w'.status[id].completedUnits)
    ensures st == Finished && !w.config[id].managesOwnProgress ==> w'.status[id].completedUnits == w.config[id].totalUnits
    ensures st != Finished || w.config[id].managesOwnProgress ==> w'.status[id].completedUnits == w.status[id].completedUnits
  {
    var s := w.status[id];
    var units := if st == Finished && !w.config[id].managesOwnProgress then w.config[id].totalUnits else s.completedUnits;
    w.(status := w.status[id := s.(state := st, completedUnits := units)], log := w.log + [Entered(id, st)])
  }

  /** Replace one operation's status. */
  function Update(w: World, id: Id, s: Status): (w': World)
    requires Known(w, id)
    ensures Frame(w, w') && Known(w', id) && w'.queued == w.queued && w'.log == w.log
    ensures w'.inputs == w.inputs && w'.arrays == w.arrays
    ensures w'.status == w.status[id := s]
  {
    w.(status := w.status[id := s])
  }

  /** Append events to the log. */
  function Log(w: World, es: seq<Event>): (w': World)
    ensures w' == w.(log := w.log + es)
    ensures Frame(w, w')
  {
    w.(log := w.log + es)
  }

  /** `ConcurrentOperation.finish()`: the will-finish hooks, then `finished`, then the finish
      date, then the did-finish hooks. */
  function BaseFinish(w: World, id: Id, now: int): (w': World)
    requires Known(w, id)
    ensures Frame(w, w') && Known(w', id) && w'.queued == w.queued
  {
    var w1 := RunHooks(w, id, w.config[id].willFinish);
    var w2 := SetState(w1, id, Finished);
    var w3 := Update(w2, id, w2.status[id].(finishDate := Some(now)));
    Log(w3, [FinishStamped(id, now)] + Fires(id, DidFinish, w.config[id].didFinish))
  }

  /** One run of a retrying operation's body: its k-th run sets the output to `attempt(k)`.
      The body's own later call of `finish()` is a separate step. */
  function RunAttempt(w: World, id: Id): (w': World)
    requires Known(w, id) && w.config[id].kind.Retrying?
    ensures Frame(w, w') && Known(w', id) && w'.queued == w.queued
    ensures w'.log == w.log + [Executed(id)]
  {
    var s := w.status[id];
    var w1 := Update(w, id, s.(output := w.config[id].kind.attempt(s.runs), runs := s.runs + 1));
    Log(w1, [Executed(id)])
  }

  /** `RetryingOperation.finish()` as written: a failure counts and asks the strategy, and a
      retry re-runs the body in place of finishing, whether or not the operation was cancelled. */
  function RetryFinishAsWritten(w: World, id: Id, now: int): (w': World)
    requires Known(w, id) && w.config[id].kind.Retrying?
    ensures Frame(w, w') && Known(w', id) && w'.queued == w.queued
  {
    var s := w.status[id];
    var d := Retrying.OnFinish(s.output, s.failureCount, w.config[id].kind.strategy);
    var w1 := Update(w, id, s.(failureCount := d.failureCount));
    if d.retry then RunAttempt(w1, id) else BaseFinish(w1, id, now)
  }

  /** `RetryingOperation.finish()` corrected: the same, except that a cancelled operation is
      never retried and so finishes. */
  function RetryFinish(w: World, id: Id, now: int): (w': World)
    requires Known(w, id) && w.config[id].kind.Retrying?
    ensures Frame(w, w') && Known(w', id) && w'.queued == w.queued
  {
    var s := w.status[id];
    var d := Retrying.OnFinish(s.output, s.failureCount, w.config[id].kind.strategy);
    var w1 := Update(w, id, s.(failureCount := d.failureCount));
    if d.retry && !s.cancelled then RunAttempt(w1, id) else BaseFinish(w1, id, now)
  }

  /** `finish()` as the source dispatches it: the retrying override, or the base one. */
  function FinishAsWritten(w: World, id: Id, now: int): (w': World)
    requires Known(w, id)
    ensures Frame(w, w') && Known(w', id) && w'.queued == w.queued
  {
    if w.config[id].kind.Retrying? then RetryFinishAsWritten(w, id, now) else BaseFinish(w, id, now)
  }

  /** `finish()` with the corrected retrying override; the rest of the model uses this one. */
  function Finish(w: World, id: Id, now: int): (w': World)
    requires Known(w, id)
    ensures Frame(w, w') && Known(w', id) && w'.queued == w.queued
  {
    if w.config[id].kind.Retrying? then RetryFinish(w, id, now) else BaseFinish(w, id, now)
  }

  /** What `execute()` of operation `id` reads besides its status: the `input` of a map
      operation or a group, the `input` array of a combine operation, and a group's wrapped
      operation, whose chain the dependency graph must give. */
  ghost predicate HasSlots(w: World, rank: map<Id, nat>, id: Id)
    requires id in w.config
  {
    match w.config[id].kind
    case Map(_) => id in w.inputs
    case Combine => id in w.arrays
    case GroupChain(tail) => id in w.inputs && tail in rank
    case _ => true
  }

  /** Set the output of operation `id`. */
  function SetOutput(w: World, id: Id, r: Result<Value>): (w': World)
    requires Known(w, id)
    ensures Frame(w, w') && Known(w', id) && w'.queued == w.queued && w'.log == w.log
    ensures w'.status == w.status[id := w.status[id].(output := r)]
  {
    Update(w, id, w.status[id].(output := r))
  }

  /** `CombineOperation.execute()`'s output: the combined values as one list value. */
  function CombineOutput(input: seq<Result<Value>>): (r: Result<Value>)
    ensures r.Success? <==> Combining.Combine(input).Success?
    ensures r.Success? ==> r.value == List(Combining.Combine(input).value)
    ensures r.Failure? ==> r.error == Combining.Combine(input).error
  {
    match Combining.Combine(input)
    case Success(vs) => Success(List(vs))
    case Failure(e) => Failure(e)
  }

  /** The group's result block: any success of the wrapped operation becomes `success(())`, and
      a failure is passed on unchanged. */
  function GroupOutput(r: Result<Value>): (g: Result<Value>)
    ensures r.Success? ==> g == Success(Unit)
    ensures r.Failure? ==> g == r
  {
    match r
    case Success(_) => Success(Unit)
    case Failure(e) => Failure(e)
  }

  /** The body of `execute()` per subclass, after the run is logged.
      - Custom: the work is started; its `finish()` comes later, as a separate step;
      - BlockResult, Map, Combine: set the output, then finish;
      - GroupChain: a failed input becomes the output and the group finishes; otherwise the
        wrapped operation's chain is handed to the group's internal queue. */
  function ExecuteBody(w: World, ghost rank: map<Id, nat>, id: Id, now: int): (w': World)
    requires Known(w, id) && Ranked(w.deps, rank) && HasSlots(w, rank, id)
    requires !w.config[id].kind.Retrying?
    ensures Frame(w, w') && Known(w', id)
  {
    match w.config[id].kind
    case Custom => w
    case BlockResult(block) => BaseFinish(SetOutput(w, id, block()), id, now)
    case Map(m) => BaseFinish(SetOutput(w, id, Mapping.MapResult(m, w.inputs[id])), id, now)
    case Combine => BaseFinish(SetOutput(w, id, CombineOutput(w.arrays[id])), id, now)
    case GroupChain(tail) =>
      match w.inputs[id]
      case Failure(e) => BaseFinish(SetOutput(w, id, Failure(e)), id, now)
      case Success(_) =>
        var chain := OperationChain(w.deps, rank, tail);
        var w1 := Update(w, id, w.status[id].(internalQueue := w.status[id].internalQueue + chain));
        w1.(queued := w1.queued + chain)
  }

  /** `execute()`: every run is logged; a retrying operation runs its body once. */
  function Execute(w: World, ghost rank: map<Id, nat>, id: Id, now: int): (w': World)
    requires Known(w, id) && Ranked(w.deps, rank) && HasSlots(w, rank, id)
    ensures Frame(w, w') && Known(w', id)
    ensures w.log + [Executed(id)] <= w'.log
  {
    if w.config[id].kind.Retrying? then RunAttempt(w, id)
    else ExecuteBody(Log(w, [Executed(id)]), rank, id, now)
  }

  /** `start()`: a cancelled operation goes straight to `finish()`; otherwise the will-start
      hooks, `executing`, the start date, the did-start hooks, then `execute()`. */
  function Start(w: World, ghost rank: map<Id, nat>, id: Id, now: int): (w': World)
    requires Known(w, id) && Ranked(w.deps, rank) && HasSlots(w, rank, id)
    ensures Frame(w, w') && Known(w', id)
  {
    if w.status[id].cancelled then Finish(w, id, now)
    else Execute(Begin(w, id, now), rank, id, now)
  }

  /** The part of `start()` before `execute()`: the will-start hooks, `executing`, the start
      date, the did-start hooks. */
  function Begin(w: World, id: Id, now: int): (w': World)
    requires Known(w, id)
    ensures Frame(w, w') && Known(w', id) && w'.queued == w.queued
  {
    var w1 := Log(w, Fires(id, WillStart, w.config[id].willStart));
    var w2 := SetState(w1, id, Executing);
    var w3 := Update(w2, id, w2.status[id].(startDate := Some(now)));
    Log(w3, [StartStamped(id, now)] + Fires(id, DidStart, w.config[id].didStart))
  }

  /** What one `cancel()` of `id` reaches, at most `depth` levels down: `id` itself, and, through
      `internalQueue.cancelAllOperations()`, every unfinished operation on its internal queue
      together with what that operation's own `cancel()` reaches in turn. (Finished operations
      have left the queue.) */
  function CancelReach(status: map<Id, Status>, id: Id, depth: nat): (r: set<Id>)
    ensures id in r
    ensures forall j | j in r && j != id :: j in status && !IsFinished(status[j])
    decreases depth
  {
    if depth == 0 || id !in status then {id}
    else
      var below := depth - 1;
      {id} + set k, j | k in status[id].internalQueue && k in status && !IsFinished(status[k])
                        && j in CancelReach(status, k, below) :: j
  }

  /** `cancel()`: the internal queue's operations are cancelled, each cascading into its own
      internal queue, then the operation itself. Cancelling has no effect on a finished
      operation. Nothing else changes; in particular no state. The cascade is followed as many
      levels down as there are operations, which covers every nesting that repeats none. */
  function Cancel(w: World, id: Id): (w': World)
    requires id in w.status
    ensures Frame(w, w') && w'.queued == w.queued && w'.log == w.log
    ensures w'.inputs == w.inputs && w'.arrays == w.arrays
  {
    var reach := CancelReach(w.status, id, |w.status|);
    w.(status := map k | k in w.status ::
      if k in reach && !IsFinished(w.status[k]) then w.status[k].(cancelled := true) else w.status[k])
  }

  // ---------------------------------------------------------------------------------------
  // Completion

  /** One piece of the composed completion block of operation `id`. A result block receives
      the output as it is when the block runs. The group's block maps the result and finishes
      the group. */
  function CompletionStep(w: World, id: Id, b: CompletionBlock, now: int): (w': World)
    requires Known(w, id)
    ensures Frame(w, w') && Known(w', id)
  {
    match b
    case Plain(t) => Log(w, [Fired(id, Completion, t)])
    case ResultBlock(t) => Log(w, [Delivered(id, t, w.status[id].output)])
    case GroupCompletion(g) =>
      if Known(w, g) then Finish(SetOutput(w, g, GroupOutput(w.status[id].output)), g, now) else w
  }

  /** The composed completion block: every piece in the order added. */
  function RunCompletionBlocks(w: World, id: Id, blocks: seq<CompletionBlock>, now: int): (w': World)
    requires Known(w, id)
    ensures Frame(w, w') && Known(w', id)
    decreases |blocks|
  {
    if blocks == [] then w
    else CompletionStep(RunCompletionBlocks(w, id, blocks[..|blocks| - 1], now), id, blocks[|blocks| - 1], now)
  }

  /** What Foundation does once an operation has finished: run its completion block. */
  function RunCompletion(w: World, id: Id, now: int): (w': World)
    requires Known(w, id)
    ensures Frame(w, w') && Known(w', id)
  {
    RunCompletionBlocks(w, id, w.config[id].completion, now)
  }
}
