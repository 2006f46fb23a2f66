/** What the lifecycle steps of `Lifecycle` promise: the order of hooks, state changes and
    timestamps in `start()` and `finish()`, progress completion, result passing, what each
    subclass's `execute()` leaves behind, retries, cancellation and completion blocks. */
module LifecycleFacts {
  import opened Results
  import opened Chains
  import opened Lifecycle
  import Mapping
  import Retrying

  /** The units an operation has completed after entering `finished`: its total, unless it
      manages its own progress. */
  function UnitsOnFinish(c: Config, s: Status): int {
    if c.managesOwnProgress then s.completedUnits else c.totalUnits
  }

  /** The log entries of one `finish()`: the will-finish blocks, the state change, the finish
      date, the did-finish blocks. */
  function FinishEvents(c: Config, id: Id, now: int): seq<Event> {
    HookEvents(id, c.willFinish) + [Entered(id, Finished), FinishStamped(id, now)] + Fires(id, DidFinish, c.didFinish)
  }

  /** `finish()`: the will-finish hooks run first, while the operation is not yet finished and
      has no finish date; they deliver the output to every consumer wired by `passesResult`
      (unless the operation was cancelled) and leave other inputs alone; then the state becomes
      `finished`, progress completes unless the operation manages its own, the finish date is
      set, and the did-finish blocks run. No other operation's status changes. */
  lemma FinishSequence(w: World, id: Id, now: int)
    requires Known(w, id)
    ensures var w' := BaseFinish(w, id, now);
            var s := w.status[id];
            && w'.log == w.log + FinishEvents(w.config[id], id, now)
            && w'.status[id] == s.(state := Finished, finishDate := Some(now), completedUnits := UnitsOnFinish(w.config[id], s))
            && (forall k | k in w.status && k != id :: w'.status[k] == w.status[k])
            && w'.queued == w.queued
            && (forall c | c in w.inputs :: w'.inputs[c]
                  == if !s.cancelled && PassResult(c) in w.config[id].willFinish then s.output else w.inputs[c])
            && (forall c | c in w.arrays :: w'.arrays[c]
                  == w.arrays[c] + (if s.cancelled then [] else Copies(s.output, multiset(w.config[id].willFinish)[AppendResult(c)])))
  {
    FinishShape(w, id, now);
    FinishPasses(w, id, now);
    FinishAppends(w, id, now);
  }

  /** The log and status part of FinishSequence. */
  lemma FinishShape(w: World, id: Id, now: int)
    requires Known(w, id)
    ensures var w' := BaseFinish(w, id, now);
            var s := w.status[id];
            && w'.log == w.log + FinishEvents(w.config[id], id, now)
            && w'.status[id] == s.(state := Finished, finishDate := Some(now), completedUnits := UnitsOnFinish(w.config[id], s))
            && (forall k | k in w.status && k != id :: w'.status[k] == w.status[k])
  {
    var w1 := RunHooks(w, id, w.config[id].willFinish);
    assert w1.status == w.status;
  }

  /** The inputs part of FinishSequence. */
  lemma FinishPasses(w: World, id: Id, now: int)
    requires Known(w, id)
    ensures var w' := BaseFinish(w, id, now);
            var s := w.status[id];
            forall c | c in w.inputs :: w'.inputs[c]
              == if !s.cancelled && PassResult(c) in w.config[id].willFinish then s.output else w.inputs[c]
  {
    var hooks := w.config[id].willFinish;
    assert BaseFinish(w, id, now).inputs == RunHooks(w, id, hooks).inputs;
    forall c | c in w.inputs
      ensures RunHooks(w, id, hooks).inputs[c]
           == if !w.status[id].cancelled && PassResult(c) in hooks then w.status[id].output else w.inputs[c]
    {
      PassResultDelivers(w, id, hooks, c);
    }
  }

  /** The arrays part of FinishSequence. */
  lemma FinishAppends(w: World, id: Id, now: int)
    requires Known(w, id)
    ensures var w' := BaseFinish(w, id, now);
            var s := w.status[id];
            forall c | c in w.arrays :: w'.arrays[c]
              == w.arrays[c] + (if s.cancelled then [] else Copies(s.output, multiset(w.config[id].willFinish)[AppendResult(c)]))
  {
    var hooks := w.config[id].willFinish;
    assert BaseFinish(w, id, now).arrays == RunHooks(w, id, hooks).arrays;
    forall c | c in w.arrays
      ensures RunHooks(w, id, hooks).arrays[c]
           == w.arrays[c] + (if w.status[id].cancelled then [] else Copies(w.status[id].output, multiset(hooks)[AppendResult(c)]))
    {
      AppendResultDelivers(w, id, hooks, c);
    }
  }

  /** The will-finish log entries are will-finish blocks of the finishing operation only. */
  lemma {:induction false} HookEventsAreWillFinish(id: Id, hooks: seq<Hook>, e: Event)
    requires e in HookEvents(id, hooks)
    ensures e.Fired? && e.op == id && e.phase == WillFinish
    decreases |hooks|
  {
    var front := hooks[..|hooks| - 1];
    var last := hooks[|hooks| - 1];
    if e in HookEvents(id, front) {
      HookEventsAreWillFinish(id, front, e);
    }
  }

  /** `finish()` logs no run of `execute()` and no start. */
  lemma FinishEventsRunNothing(c: Config, id: Id, now: int, e: Event)
    requires e in FinishEvents(c, id, now)
    ensures !e.Executed? && !e.StartStamped? && !e.Delivered?
    ensures e.Fired? ==> e.phase == WillFinish || e.phase == DidFinish
  {
    var hooks := HookEvents(id, c.willFinish);
    var rest := [Entered(id, Finished), FinishStamped(id, now)] + Fires(id, DidFinish, c.didFinish);
    assert FinishEvents(c, id, now) == hooks + rest;
    if e in hooks {
      HookEventsAreWillFinish(id, c.willFinish, e);
    } else {
      var i :| 0 <= i < |rest| && rest[i] == e;
    }
  }

  /** A cancelled operation's `start()` is its `finish()`, which for a retrying operation first
      counts a failure (the corrected `finish()` then never retries). */
  lemma CancelledStartIsFinish(w: World, rank: map<Id, nat>, id: Id, now: int) returns (w1: World)
    requires Known(w, id) && Ranked(w.deps, rank) && HasSlots(w, rank, id)
    requires w.status[id].cancelled
    ensures Known(w1, id) && w1.config == w.config && w1.log == w.log
    ensures w1.status[id] == w.status[id].(failureCount := w1.status[id].failureCount)
    ensures Start(w, rank, id, now) == BaseFinish(w1, id, now)
  {
    var c := w.config[id];
    var s := w.status[id];
    if c.kind.Retrying? {
      w1 := Update(w, id, s.(failureCount := Retrying.OnFinish(s.output, s.failureCount, c.kind.strategy).failureCount));
    } else {
      w1 := w;
    }
  }

  /** `start()` on a cancelled operation only finishes it: no will-start or did-start block
      runs, no start date is set, `execute()` never runs, and the operation ends `finished`.
      A retrying operation counts the failure of its `noResult` output but is not retried. */
  lemma CancelledStartNeverExecutes(w: World, rank: map<Id, nat>, id: Id, now: int)
    requires Known(w, id) && Ranked(w.deps, rank) && HasSlots(w, rank, id)
    requires w.status[id].cancelled
    ensures var w' := Start(w, rank, id, now);
            && w'.log == w.log + FinishEvents(w.config[id], id, now)
            && (forall e | e in w'.log[|w.log|..] :: !e.Executed? && !e.StartStamped?)
            && w'.status[id].state == Finished && w'.status[id].startDate == w.status[id].startDate
  {
    var w1 := CancelledStartIsFinish(w, rank, id, now);
    FinishSequence(w1, id, now);
    var w' := Start(w, rank, id, now);
    assert w'.log[|w.log|..] == FinishEvents(w.config[id], id, now);
    forall e | e in w'.log[|w.log|..] ensures !e.Executed? && !e.StartStamped? {
      FinishEventsRunNothing(w.config[id], id, now, e);
    }
  }

  /** As written, `finish()` on a cancelled retrying operation whose strategy asks for a retry
      runs `execute()` again instead of finishing: this is what `start()` does with a cancelled
      retrying operation, whose output is still a failure. The corrected `finish()` finishes it. */
  lemma CancelledRetryingExecutesAsWritten(w: World, id: Id, now: int)
    requires Known(w, id) && w.config[id].kind.Retrying? && w.status[id].cancelled
    requires w.status[id].output.Failure?
    requires w.config[id].kind.strategy(w.status[id].failureCount + 1, w.status[id].output.error)
    ensures FinishAsWritten(w, id, now).log == w.log + [Executed(id)]
    ensures FinishAsWritten(w, id, now).status[id].state == w.status[id].state
    ensures Finish(w, id, now).status[id].state == Finished
  {
    var s := w.status[id];
    var w1 := Update(w, id, s.(failureCount := s.failureCount + 1));
    FinishSequence(w1, id, now);
  }

  /** A new retrying operation with `repeat(times: 1)`, cancelled before it starts: as
      written, its `start()` runs the body although the operation was cancelled, and the
      operation is not finished until the body's own `finish()`. */
  lemma CancelledRepeatOnceRunsAsWritten(attempt: nat -> Result<Value>, now: int)
    ensures var cfg := NewConfig(Retrying(Retrying.Repeat(1), attempt));
            var w := World(map[0 := cfg], map[0 := NewStatus().(cancelled := true)], map[], map[], map[], {}, []);
            && FinishAsWritten(w, 0, now).log == [Executed(0)]
            && FinishAsWritten(w, 0, now).status[0].state == Ready
            && FinishAsWritten(w, 0, now).status[0].output == attempt(0)
  {
    var cfg := NewConfig(Retrying(Retrying.Repeat(1), attempt));
    var w := World(map[0 := cfg], map[0 := NewStatus().(cancelled := true)], map[], map[], map[], {}, []);
    CancelledRetryingExecutesAsWritten(w, 0, now);
  }

  /** `start()` on an operation that is not cancelled: the will-start blocks, the change to
      `executing`, the start date, the did-start blocks, and then `execute()`, in that order. */
  lemma StartSequence(w: World, rank: map<Id, nat>, id: Id, now: int)
    requires Known(w, id) && Ranked(w.deps, rank) && HasSlots(w, rank, id)
    requires !w.status[id].cancelled
    ensures var c := w.config[id];
            w.log + Fires(id, WillStart, c.willStart) + [Entered(id, Executing), StartStamped(id, now)]
              + Fires(id, DidStart, c.didStart) + [Executed(id)] <= Start(w, rank, id, now).log
  {
    var c := w.config[id];
    var b := Begin(w, id, now);
    assert b.log == w.log + Fires(id, WillStart, c.willStart) + [Entered(id, Executing), StartStamped(id, now)]
                    + Fires(id, DidStart, c.didStart);
    assert b.log + [Executed(id)] <= Execute(b, rank, id, now).log;
  }

  /** The log entries of `start()` up to and including the run of `execute()`. */
  function StartEvents(c: Config, id: Id, now: int): seq<Event> {
    Fires(id, WillStart, c.willStart) + [Entered(id, Executing), StartStamped(id, now)]
      + Fires(id, DidStart, c.didStart) + [Executed(id)]
  }

  /** The world `start()` hands to the subclass's `execute()` body: the operation is
      `executing` with its start date set, and the start has been logged. */
  lemma StartedWorld(w: World, rank: map<Id, nat>, id: Id, now: int) returns (w4: World)
    requires Known(w, id) && Ranked(w.deps, rank) && HasSlots(w, rank, id)
    requires !w.status[id].cancelled && !w.config[id].kind.Retrying?
    ensures Known(w4, id) && w4.config == w.config && w4.deps == w.deps && w4.queued == w.queued
    ensures w4.inputs == w.inputs && w4.arrays == w.arrays
    ensures w4.status == w.status[id := w.status[id].(state := Executing, startDate := Some(now))]
    ensures w4.log == w.log + StartEvents(w.config[id], id, now)
    ensures HasSlots(w4, rank, id)
    ensures Start(w, rank, id, now) == ExecuteBody(w4, rank, id, now)
  {
    w4 := Log(Begin(w, id, now), [Executed(id)]);
  }

  /** A custom operation that is not cancelled: `start()` leaves it `executing`, with its
      start date set and progress untouched, waiting for its own `finish()`. */
  lemma StartCustom(w: World, rank: map<Id, nat>, id: Id, now: int)
    requires Known(w, id) && Ranked(w.deps, rank) && HasSlots(w, rank, id)
    requires !w.status[id].cancelled && w.config[id].kind.Custom?
    ensures var w' := Start(w, rank, id, now);
            && w'.log == w.log + StartEvents(w.config[id], id, now)
            && w'.status == w.status[id := w.status[id].(state := Executing, startDate := Some(now))]
            && w'.inputs == w.inputs && w'.arrays == w.arrays && w'.queued == w.queued
  {
    var w4 := StartedWorld(w, rank, id, now);
  }

  /** `executionTime`: 0 before the start; while running, the time since the start; after the
      finish, the time from the start to the finish, whenever it is read. */
  lemma ExecutionTimeAcrossLifecycle(w: World, rank: map<Id, nat>, id: Id, start: int, end: int, later: int)
    requires Known(w, id) && Ranked(w.deps, rank) && HasSlots(w, rank, id)
    requires !w.status[id].cancelled && w.config[id].kind.Custom?
    requires w.status[id].startDate.None? && w.status[id].finishDate.None?
    ensures ExecutionTime(w.status[id], later) == 0
    ensures var w' := Start(w, rank, id, start);
            && ExecutionTime(w'.status[id], later) == later - start
            && ExecutionTime(BaseFinish(w', id, end).status[id], later) == end - start
  {
    StartCustom(w, rank, id, start);
    FinishSequence(Start(w, rank, id, start), id, end);
  }

  /** `BlockResultOperation.execute()`: the output becomes what the block returns, and only then
      does the operation finish, so the will-finish hooks already pass that result on. */
  lemma BlockResultPassesItsValue(w: World, rank: map<Id, nat>, id: Id, now: int, c: Id)
    requires Known(w, id) && Ranked(w.deps, rank) && HasSlots(w, rank, id)
    requires !w.status[id].cancelled && w.config[id].kind.BlockResult?
    requires c in w.inputs && PassResult(c) in w.config[id].willFinish
    ensures var w' := Start(w, rank, id, now);
            && w'.status[id].output == w.config[id].kind.block()
            && w'.status[id].state == Finished
            && w'.inputs[c] == w.config[id].kind.block()
  {
    var w4 := StartedWorld(w, rank, id, now);
    FinishSequence(SetOutput(w4, id, w.config[id].kind.block()), id, now);
  }

  /** `MapOperation.execute()`: the output becomes the mapping of the input, then the operation
      finishes. */
  lemma MapExecutes(w: World, rank: map<Id, nat>, id: Id, now: int)
    requires Known(w, id) && Ranked(w.deps, rank) && HasSlots(w, rank, id)
    requires !w.status[id].cancelled && w.config[id].kind.Map?
    ensures var w' := Start(w, rank, id, now);
            && w'.status[id].output == Mapping.MapResult(w.config[id].kind.mapping, w.inputs[id])
            && w'.status[id].state == Finished
  {
    var w4 := StartedWorld(w, rank, id, now);
    FinishSequence(SetOutput(w4, id, Mapping.MapResult(w.config[id].kind.mapping, w.inputs[id])), id, now);
  }

  /** `CombineOperation.execute()`: the output becomes the combination of the input array, then
      the operation finishes. */
  lemma CombineExecutes(w: World, rank: map<Id, nat>, id: Id, now: int)
    requires Known(w, id) && Ranked(w.deps, rank) && HasSlots(w, rank, id)
    requires !w.status[id].cancelled && w.config[id].kind.Combine?
    ensures var w' := Start(w, rank, id, now);
            && w'.status[id].output == CombineOutput(w.arrays[id])
            && w'.status[id].state == Finished
  {
    var w4 := StartedWorld(w, rank, id, now);
    FinishSequence(SetOutput(w4, id, CombineOutput(w.arrays[id])), id, now);
  }

  /** `GroupChainOperation.execute()` with a failed input: the failure becomes the output and
      the group finishes, and nothing is enqueued. */
  lemma GroupFailedInputShortCircuits(w: World, rank: map<Id, nat>, id: Id, now: int)
    requires Known(w, id) && Ranked(w.deps, rank) && HasSlots(w, rank, id)
    requires !w.status[id].cancelled && w.config[id].kind.GroupChain? && w.inputs[id].Failure?
    ensures var w' := Start(w, rank, id, now);
            && w'.status[id].output == w.inputs[id]
            && w'.status[id].state == Finished
            && w'.queued == w.queued && w'.status[id].internalQueue == w.status[id].internalQueue
  {
    var w4 := StartedWorld(w, rank, id, now);
    FinishSequence(SetOutput(w4, id, w.inputs[id]), id, now);
  }

  /** `GroupChainOperation.execute()` with a successful input: the wrapped operation's whole
      chain goes onto the group's internal queue, and the group keeps executing until the
      wrapped operation completes. */
  lemma GroupEnqueuesChain(w: World, rank: map<Id, nat>, id: Id, now: int)
    requires Known(w, id) && Ranked(w.deps, rank) && HasSlots(w, rank, id)
    requires !w.status[id].cancelled && w.config[id].kind.GroupChain? && w.inputs[id].Success?
    ensures var w' := Start(w, rank, id, now);
            var chain := OperationChain(w.deps, rank, w.config[id].kind.tail);
            && w'.queued == w.queued + chain
            && w'.status[id].internalQueue == w.status[id].internalQueue + chain
            && w'.status[id].state == Executing
            && w'.status[id].output == w.status[id].output
  {
    var w4 := StartedWorld(w, rank, id, now);
  }

  /** The group's completion block on the wrapped operation `t`: the group's output becomes
      `success(())` or `t`'s error, and the group finishes. */
  lemma GroupCompletionFinishesGroup(w: World, t: Id, g: Id, now: int)
    requires Known(w, t) && Known(w, g) && w.config[g].kind.GroupChain?
    ensures var w' := CompletionStep(w, t, GroupCompletion(g), now);
            && w'.status[g].output == GroupOutput(w.status[t].output)
            && w'.status[g].state == Finished
  {
    FinishSequence(SetOutput(w, g, GroupOutput(w.status[t].output)), g, now);
  }

  /** `RetryingOperation.finish()`: a success finishes normally and counts nothing; a failure
      counts one more failure and asks the strategy with the new count and the error; when it
      says to retry (and the operation was not cancelled) the body runs again and the operation
      does not finish, and otherwise the operation finishes normally. */
  lemma RetryFinishOutcomes(w: World, id: Id, now: int)
    requires Known(w, id) && w.config[id].kind.Retrying?
    ensures var s := w.status[id];
            var k := w.config[id].kind;
            var w' := Finish(w, id, now);
            && (s.output.Success? ==> w' == BaseFinish(w, id, now))
            && (s.output.Failure? ==>
                  && w'.status[id].failureCount == s.failureCount + 1
                  && if k.strategy(s.failureCount + 1, s.output.error) && !s.cancelled
                     then w'.log == w.log + [Executed(id)] && w'.status[id].state == s.state
                          && w'.status[id].output == k.attempt(s.runs) && w'.status[id].runs == s.runs + 1
                     else w'.status[id].state == Finished)
  {
    var s := w.status[id];
    if s.output.Failure? {
      FinishSequence(Update(w, id, s.(failureCount := s.failureCount + 1)), id, now);
    } else {
      assert s.(failureCount := s.failureCount) == s;
      assert w.status[id := s] == w.status;
    }
  }

  /** One level of nesting: `b` is known, unfinished, and on the internal queue of `a`. */
  ghost predicate Nests(status: map<Id, Status>, a: Id, b: Id) {
    a in status && b in status[a].internalQueue && b in status && !IsFinished(status[b])
  }

  /** A path of nested internal queues. */
  ghost predicate NestedPath(status: map<Id, Status>, p: seq<Id>) {
    |p| >= 1 && forall i | 0 <= i < |p| - 1 :: Nests(status, p[i], p[i + 1])
  }

  /** `cancel()` of `id` reaches `k`: `k` is `id`, or lies at the end of a nesting path from `id`. */
  ghost predicate CancelReaches(status: map<Id, Status>, id: Id, k: Id) {
    exists p :: NestedPath(status, p) && p[0] == id && p[|p| - 1] == k
  }

  /** Everything `CancelReach` collects lies at the end of a nesting path no longer than the depth
      allows. */
  lemma {:induction false} CancelReachHasPath(status: map<Id, Status>, id: Id, depth: nat, j: Id)
    returns (p: seq<Id>)
    requires j in CancelReach(status, id, depth)
    ensures NestedPath(status, p) && p[0] == id && p[|p| - 1] == j && |p| <= depth + 1
    decreases depth
  {
    if j == id {
      p := [id];
    } else {
      var below := depth - 1;
      var k :| k in status[id].internalQueue && k in status && !IsFinished(status[k])
                && j in CancelReach(status, k, below);
      var q := CancelReachHasPath(status, k, below, j);
      p := [id] + q;
      forall i | 0 <= i < |p| - 1 ensures Nests(status, p[i], p[i + 1]) {
        if i > 0 {
          assert p[i] == q[i - 1] && p[i + 1] == q[i];
        }
      }
    }
  }

  /** The end of every nesting path from `id` no longer than the depth allows is collected. */
  lemma {:induction false} PathInCancelReach(status: map<Id, Status>, p: seq<Id>, depth: nat)
    requires NestedPath(status, p) && |p| <= depth + 1
    ensures p[|p| - 1] in CancelReach(status, p[0], depth)
    decreases |p|
  {
    if |p| > 1 {
      var q := p[1..];
      assert NestedPath(status, q) by {
        forall i | 0 <= i < |q| - 1 ensures Nests(status, q[i], q[i + 1]) {
          assert q[i] == p[i + 1] && q[i + 1] == p[i + 2];
        }
      }
      PathInCancelReach(status, q, depth - 1);
      var below := depth - 1;
      assert Nests(status, p[0], p[1]);
      assert q[|q| - 1] in CancelReach(status, p[1], below);
    }
  }

  /** A sequence longer than the set its elements come from repeats an element. */
  lemma {:induction false} Repeats(p: seq<Id>, ids: set<Id>) returns (i: nat, j: nat)
    requires |p| > |ids| && forall x | x in p :: x in ids
    ensures i < j < |p| && p[i] == p[j]
    decreases |p|
  {
    assert p[0] in p;
    if p[0] in p[1..] {
      var m :| 0 <= m < |p[1..]| && p[1..][m] == p[0];
      i, j := 0, m + 1;
    } else {
      forall x | x in p[1..] ensures x in ids - {p[0]} {
        assert x in p;
      }
      var a, b := Repeats(p[1..], ids - {p[0]});
      i, j := a + 1, b + 1;
    }
  }

  /** A nesting path can be cut down to one no longer than the number of operations. */
  lemma {:induction false} ShortPath(status: map<Id, Status>, p: seq<Id>) returns (q: seq<Id>)
    requires NestedPath(status, p) && p[0] in status
    ensures NestedPath(status, q) && q[0] == p[0] && q[|q| - 1] == p[|p| - 1] && |q| <= |status|
    decreases |p|
  {
    if |p| <= |status| {
      q := p;
    } else {
      forall x | x in p ensures x in status.Keys {
        var m :| 0 <= m < |p| && p[m] == x;
        if m > 0 { assert Nests(status, p[m - 1], p[m]); }
      }
      var i, j := Repeats(p, status.Keys);
      var r := p[..i] + p[j..];
      assert NestedPath(status, r) by {
        forall n | 0 <= n < |r| - 1 ensures Nests(status, r[n], r[n + 1]) {
          if n + 1 < i {
            assert r[n] == p[n] && r[n + 1] == p[n + 1];
          } else if n + 1 == i {
            assert r[n] == p[n] && r[n + 1] == p[j] == p[i];
          } else {
            assert r[n] == p[n - i + j] && r[n + 1] == p[n + 1 - i + j];
          }
        }
      }
      assert r[0] == p[0] && r[|r| - 1] == p[|p| - 1];
      q := ShortPath(status, r);
    }
  }

  /** `cancel()` of a known operation reaches exactly the operations at the ends of nesting paths
      from it, however deep. */
  lemma CancelReachIff(status: map<Id, Status>, id: Id, k: Id)
    requires id in status
    ensures k in CancelReach(status, id, |status|) <==> CancelReaches(status, id, k)
  {
    if k in CancelReach(status, id, |status|) {
      var p := CancelReachHasPath(status, id, |status|, k);
    }
    if CancelReaches(status, id, k) {
      var p :| NestedPath(status, p) && p[0] == id && p[|p| - 1] == k;
      var q := ShortPath(status, p);
      PathInCancelReach(status, q, |status|);
    }
  }

  /** `cancel()`: every unfinished operation it reaches (the operation itself, what is on its
      internal queue, what is on theirs, and so on) becomes cancelled; a finished operation is
      left alone, and nothing else about any operation changes. */
  lemma CancelEffects(w: World, id: Id, k: Id)
    requires id in w.status && k in w.status
    ensures var s := w.status[k];
            Cancel(w, id).status[k]
              == s.(cancelled := s.cancelled || (!IsFinished(s) && CancelReaches(w.status, id, k)))
  {
    CancelReachIff(w.status, id, k);
  }

  /** The cascade: an unfinished operation on the internal queue of an operation that a
      `cancel()` reaches is cancelled too. */
  lemma CancelCascades(w: World, id: Id, x: Id, k: Id)
    requires id in w.status && CancelReaches(w.status, id, x) && Nests(w.status, x, k)
    ensures Cancel(w, id).status[k].cancelled
  {
    var p :| NestedPath(w.status, p) && p[0] == id && p[|p| - 1] == x;
    var q := p + [k];
    assert NestedPath(w.status, q) by {
      forall i | 0 <= i < |q| - 1 ensures Nests(w.status, q[i], q[i + 1]) {
        if i + 1 < |p| {
          assert q[i] == p[i] && q[i + 1] == p[i + 1];
        }
      }
    }
    assert q[0] == id && q[|q| - 1] == k;
    CancelEffects(w, id, k);
  }

  /** Cancelling keeps every internal queue and every state, so it reaches the same operations
      again. */
  lemma CancelKeepsNesting(w: World, id: Id, k: Id)
    requires id in w.status
    ensures CancelReaches(Cancel(w, id).status, id, k) <==> CancelReaches(w.status, id, k)
  {
    var s1 := Cancel(w, id).status;
    forall a, b ensures Nests(s1, a, b) <==> Nests(w.status, a, b) {
      if a in w.status && b in w.status {
        assert s1[a].internalQueue == w.status[a].internalQueue && s1[b].state == w.status[b].state;
      }
    }
    forall p ensures NestedPath(s1, p) <==> NestedPath(w.status, p) {
    }
  }

  /** Cancelling twice is cancelling once. */
  lemma CancelIdempotent(w: World, id: Id)
    requires id in w.status
    ensures Cancel(Cancel(w, id), id) == Cancel(w, id)
  {
    var w1 := Cancel(w, id);
    forall k | k in w.status ensures Cancel(w1, id).status[k] == w1.status[k] {
      CancelEffects(w, id, k);
      CancelEffects(w1, id, k);
      CancelKeepsNesting(w, id, k);
    }
  }

  /** A group `g` whose internal queue holds a nested group `h`, whose own internal queue holds an
      operation `t`, none of them finished: cancelling `g` cancels `t` as well. */
  lemma NestedGroupCancelled(w: World, g: Id, h: Id, t: Id)
    requires g in w.status && Nests(w.status, g, h) && Nests(w.status, h, t)
    ensures Cancel(w, g).status[h].cancelled && Cancel(w, g).status[t].cancelled
  {
    assert NestedPath(w.status, [g]);
    CancelCascades(w, g, g, h);
    assert NestedPath(w.status, [g, h]);
    CancelCascades(w, g, h, t);
  }

  /** A consumer that is not cancelled is not ready while any of its dependencies (such as a
      producer wired by `passesResult`) has not finished. */
  lemma ConsumerWaitsForProducer(w: World, c: Id, p: Id)
    requires c in w.status && !w.status[c].cancelled
    requires p in DepsOf(w.deps, c) && p in w.status && !IsFinished(w.status[p])
    ensures !IsReady(w, c)
  {
  }

  /** Readiness in full: `ready` and either cancelled or with every dependency finished. */
  lemma ReadyIff(w: World, id: Id)
    requires id in w.status
    ensures IsReady(w, id) <==>
              (&& w.status[id].state == Ready
               && (w.status[id].cancelled || forall d | d in DepsOf(w.deps, id) :: d in w.status && IsFinished(w.status[d])))
  {
  }

  /** The log entries a completion piece of operation `id` makes itself, given the output it
      sees. A group's piece makes none: what it logs is the group's own `finish()`. */
  function CompletionEvents(id: Id, blocks: seq<CompletionBlock>, output: Result<Value>): seq<Event> {
    if blocks == [] then []
    else
      var b := blocks[|blocks| - 1];
      CompletionEvents(id, blocks[..|blocks| - 1], output)
        + match b
          case Plain(t) => [Fired(id, Completion, t)]
          case ResultBlock(t) => [Delivered(id, t, output)]
          case GroupCompletion(_) => []
  }

  /** Events that completion blocks log: a plain block firing or a result delivered. */
  predicate IsCompletionEvent(e: Event) {
    (e.Fired? && e.phase == Completion) || e.Delivered?
  }

  /** The completion events among `es`, in order. */
  function CompletionOnly(es: seq<Event>): (cs: seq<Event>)
    ensures forall e | e in cs :: e in es && IsCompletionEvent(e)
  {
    if es == [] then []
    else (if IsCompletionEvent(es[0]) then [es[0]] else []) + CompletionOnly(es[1..])
  }

  lemma {:induction false} CompletionOnlyAppend(a: seq<Event>, b: seq<Event>)
    ensures CompletionOnly(a + b) == CompletionOnly(a) + CompletionOnly(b)
    decreases |a|
  {
    if a != [] {
      assert (a + b)[0] == a[0];
      assert (a + b)[1..] == a[1..] + b;
      CompletionOnlyAppend(a[1..], b);
    } else {
      assert a + b == b;
    }
  }

  lemma {:induction false} CompletionOnlyNone(es: seq<Event>)
    requires forall e | e in es :: !IsCompletionEvent(e)
    ensures CompletionOnly(es) == []
    decreases |es|
  {
    if es != [] {
      assert es[0] in es;
      assert forall e | e in es[1..] :: e in es;
      CompletionOnlyNone(es[1..]);
    }
  }

  /** A group's `finish()`, as its completion piece calls it, logs no completion event and
      changes no other operation's status. */
  lemma FinishLogsNoCompletion(w: World, g: Id, now: int, k: Id)
    requires Known(w, g) && k in w.status && k != g
    ensures var w' := Finish(w, g, now);
            && w.log <= w'.log
            && CompletionOnly(w'.log[|w.log|..]) == []
            && w'.status[k] == w.status[k]
  {
    var s := w.status[g];
    var w1 := if w.config[g].kind.Retrying?
              then Update(w, g, s.(failureCount := Retrying.OnFinish(s.output, s.failureCount, w.config[g].kind.strategy).failureCount))
              else w;
    var w' := Finish(w, g, now);
    if w.config[g].kind.Retrying? && w' == RunAttempt(w1, g) {
      assert w'.log[|w.log|..] == [Executed(g)];
      CompletionOnlyNone([Executed(g)]);
    } else {
      assert w' == BaseFinish(w1, g, now);
      FinishShape(w1, g, now);
      var es := FinishEvents(w1.config[g], g, now);
      assert w'.log[|w.log|..] == es;
      forall e | e in es
        ensures !IsCompletionEvent(e)
      {
        FinishEventsRunNothing(w1.config[g], g, now, e);
      }
      CompletionOnlyNone(es);
    }
  }

  /** The composed completion block runs every piece once, in the order added: the completion
      events it logs are those of its plain and result pieces, in that order, and every result
      block receives the operation's output, which no piece changes. A group's piece (wrapping
      another operation) finishes the group in between. With no group piece, nothing but the
      log changes. */
  lemma {:induction false} CompletionOrder(w: World, id: Id, blocks: seq<CompletionBlock>, now: int)
    requires Known(w, id) && forall b | b in blocks && b.GroupCompletion? :: b.group != id
    ensures var w' := RunCompletionBlocks(w, id, blocks, now);
            && w.log <= w'.log
            && CompletionOnly(w'.log[|w.log|..]) == CompletionEvents(id, blocks, w.status[id].output)
            && w'.status[id] == w.status[id]
    decreases |blocks|
  {
    if blocks != [] {
      var front := blocks[..|blocks| - 1];
      var b := blocks[|blocks| - 1];
      assert forall x | x in front :: x in blocks;
      assert b in blocks;
      CompletionOrder(w, id, front, now);
      var w1 := RunCompletionBlocks(w, id, front, now);
      var w2 := CompletionStep(w1, id, b, now);
      assert RunCompletionBlocks(w, id, blocks, now) == w2;
      CompletionPieceEvents(w1, id, b, now);
      CompletionOnlyChain(w.log, w1.log, w2.log);
      assert CompletionEvents(id, blocks, w.status[id].output)
          == CompletionEvents(id, front, w.status[id].output) + CompletionEvents(id, [b], w.status[id].output);
    }
  }

  /** With no group piece, the composed completion block changes nothing but the log, and
      logs exactly its pieces' events. */
  lemma {:induction false} PlainCompletionOrder(w: World, id: Id, blocks: seq<CompletionBlock>, now: int)
    requires Known(w, id) && forall b | b in blocks :: !b.GroupCompletion?
    ensures RunCompletionBlocks(w, id, blocks, now).log == w.log + CompletionEvents(id, blocks, w.status[id].output)
    ensures RunCompletionBlocks(w, id, blocks, now).status == w.status
    decreases |blocks|
  {
    if blocks != [] {
      var front := blocks[..|blocks| - 1];
      assert forall b | b in front :: b in blocks;
      PlainCompletionOrder(w, id, front, now);
      PlainStep(RunCompletionBlocks(w, id, front, now), id, blocks[|blocks| - 1], now);
    }
  }

  /** The completion events after `l0` are those up to `l1`, then those after it. */
  lemma CompletionOnlyChain(l0: seq<Event>, l1: seq<Event>, l2: seq<Event>)
    requires l0 <= l1 <= l2
    ensures l0 <= l2
    ensures CompletionOnly(l2[|l0|..]) == CompletionOnly(l1[|l0|..]) + CompletionOnly(l2[|l1|..])
  {
    assert l2[|l0|..] == l1[|l0|..] + l2[|l1|..];
    CompletionOnlyAppend(l1[|l0|..], l2[|l1|..]);
  }

  /** One completion piece: its own completion events, given the output it sees; the
      operation's status is kept, and a plain or result piece changes nothing but the log. */
  lemma CompletionPieceEvents(w: World, id: Id, b: CompletionBlock, now: int)
    requires Known(w, id) && (b.GroupCompletion? ==> b.group != id)
    ensures var w' := CompletionStep(w, id, b, now);
            && w.log <= w'.log
            && CompletionOnly(w'.log[|w.log|..]) == CompletionEvents(id, [b], w.status[id].output)
            && w'.status[id] == w.status[id]
            && (!b.GroupCompletion? ==> w'.log == w.log + CompletionEvents(id, [b], w.status[id].output) && w'.status == w.status)
  {
    var w' := CompletionStep(w, id, b, now);
    match b
    case Plain(t) =>
      assert w'.log[|w.log|..] == [Fired(id, Completion, t)];
    case ResultBlock(t) =>
      assert w'.log[|w.log|..] == [Delivered(id, t, w.status[id].output)];
    case GroupCompletion(g) =>
      if Known(w, g) {
        FinishLogsNoCompletion(SetOutput(w, g, GroupOutput(w.status[id].output)), g, now, id);
      } else {
        assert w'.log[|w.log|..] == [];
      }
  }

  /** A plain or result piece only logs its event. */
  lemma PlainStep(w: World, id: Id, b: CompletionBlock, now: int)
    requires Known(w, id) && !b.GroupCompletion?
    ensures CompletionStep(w, id, b, now).status == w.status
    ensures CompletionStep(w, id, b, now).log
         == w.log + [if b.Plain? then Fired(id, Completion, b.tag) else Delivered(id, b.tag, w.status[id].output)]
  {
  }

  /** `addResultBlock` / `addCompletionBlock`: the earlier blocks still run, all before the new
      one; a new result block receives the operation's output. */
  lemma AddedBlockRunsLast(w: World, id: Id, blocks: seq<CompletionBlock>, b: CompletionBlock, now: int)
    requires Known(w, id) && !b.GroupCompletion?
    requires forall x | x in blocks && x.GroupCompletion? :: x.group != id
    ensures var before := RunCompletionBlocks(w, id, blocks, now);
            var after := RunCompletionBlocks(w, id, blocks + [b], now);
            && before.log <= after.log
            && after.log == before.log + [if b.Plain? then Fired(id, Completion, b.tag) else Delivered(id, b.tag, w.status[id].output)]
  {
    assert (blocks + [b])[..|blocks|] == blocks;
    CompletionOrder(w, id, blocks, now);
  }
}
