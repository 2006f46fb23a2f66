/** Result passing between operations (PeakOperation/Core/UsingResult.swift): result blocks,
    and `passesResult`/`passesResults`, which make a consumer wait for a producer and add a
    will-finish hook to the producer that hands its output to the consumer. */
module UsingResults {
  import opened Results
  import opened Chains
  import opened Lifecycle
  import opened LifecycleFacts
  import opened OperationGraphs
  import opened OperationThen

  /** `addResultBlock`: the block is called with the output after the existing completion
      block, as one more piece of the composed completion block. */
  method AddResultBlock(g: OperationGraph, id: Id, tag: nat)
    requires g.Valid() && id in g.config
    modifies g
    ensures g.Valid() && g.rank == old(g.rank) && g.nextId == old(g.nextId)
    ensures g.config == old(g.config)[id := old(g.config[id]).(completion := old(g.config[id]).completion + [ResultBlock(tag)])]
    ensures g.status == old(g.status) && g.inputs == old(g.inputs) && g.arrays == old(g.arrays) && g.deps == old(g.deps)
    ensures g.queued == old(g.queued) && g.log == old(g.log)
  {
    g.AddCompletion(id, ResultBlock(tag));
  }

  /** The operations' configurations once `p` has gained the will-finish hooks `hooks`. */
  function WithHooks(config: map<Id, Config>, p: Id, hooks: seq<Hook>): (c: map<Id, Config>)
    requires p in config
    ensures c.Keys == config.Keys && c[p].willFinish == config[p].willFinish + hooks
    ensures forall q | q in config && q != p :: c[q] == config[q]
  {
    config[p := config[p].(willFinish := config[p].willFinish + hooks)]
  }

  /** One more hook is one more element of the added list. */
  lemma WithHooksStep(config: map<Id, Config>, p: Id, hooks: seq<Hook>, h: Hook)
    requires p in config
    ensures var c := WithHooks(config, p, hooks);
            c[p := c[p].(willFinish := c[p].willFinish + [h])] == WithHooks(config, p, hooks + [h])
  {
    assert config[p].willFinish + hooks + [h] == config[p].willFinish + (hooks + [h]);
  }

  /** `passesResult(to:)` for a consumer of one result: the consumer waits for the producer,
      and the producer's last will-finish hook copies its output into the consumer's input
      unless the producer is cancelled. The consumer must not already be in the producer's
      chain. Returns the consumer. */
  method PassesResult(g: OperationGraph, p: Id, c: Id) returns (r: Id)
    requires g.Valid() && p in g.config && c in g.config && c in g.inputs
    requires c !in OperationChain(g.deps, g.rank, p)
    modifies g
    ensures r == c
    ensures g.Valid() && g.nextId == old(g.nextId)
    ensures DepsOf(g.deps, c) == DepsOf(old(g.deps), c) + {p}
    ensures forall y | y != c :: DepsOf(g.deps, y) == DepsOf(old(g.deps), y)
    ensures g.config == WithHooks(old(g.config), p, [PassResult(c)])
    ensures g.status == old(g.status) && g.inputs == old(g.inputs) && g.arrays == old(g.arrays)
    ensures g.queued == old(g.queued) && g.log == old(g.log)
  {
    g.AddDependency(c, p);
    g.AddWillFinishBlock(p, PassResult(c));
    r := c;
  }

  /** `passesResult(to:)` for a consumer of many results: as `PassesResult`, except that the
      hook appends the output to the consumer's input array. */
  method PassesResultAppending(g: OperationGraph, p: Id, c: Id) returns (r: Id)
    requires g.Valid() && p in g.config && c in g.config && c in g.arrays
    requires c !in OperationChain(g.deps, g.rank, p)
    modifies g
    ensures r == c
    ensures g.Valid() && g.nextId == old(g.nextId)
    ensures DepsOf(g.deps, c) == DepsOf(old(g.deps), c) + {p}
    ensures forall y | y != c :: DepsOf(g.deps, y) == DepsOf(old(g.deps), y)
    ensures g.config == WithHooks(old(g.config), p, [AppendResult(c)])
    ensures g.status == old(g.status) && g.inputs == old(g.inputs) && g.arrays == old(g.arrays)
    ensures g.queued == old(g.queued) && g.log == old(g.log)
  {
    g.AddDependency(c, p);
    g.AddWillFinishBlock(p, AppendResult(c));
    r := c;
  }

  /** One `PassResult` hook per consumer, in order. */
  function PassHooks(cs: seq<Id>): (hs: seq<Hook>)
    ensures |hs| == |cs| && forall i | 0 <= i < |cs| :: hs[i] == PassResult(cs[i])
  {
    seq(|cs|, i requires 0 <= i < |cs| => PassResult(cs[i]))
  }

  /** One `AppendResult` hook per consumer, in order. */
  function AppendHooks(cs: seq<Id>): (hs: seq<Hook>)
    ensures |hs| == |cs| && forall i | 0 <= i < |cs| :: hs[i] == AppendResult(cs[i])
  {
    seq(|cs|, i requires 0 <= i < |cs| => AppendResult(cs[i]))
  }

  /** The hooks for one more prefix of the consumers. */
  lemma PassHooksPrefix(cs: seq<Id>, i: nat)
    requires i < |cs|
    ensures PassHooks(cs[..i]) + [PassResult(cs[i])] == PassHooks(cs[..i + 1])
  {
    assert PassHooks(cs[..i]) + [PassResult(cs[i])] == PassHooks(cs[..i + 1]);
  }

  /** The hooks for one more prefix of the consumers. */
  lemma AppendHooksPrefix(cs: seq<Id>, i: nat)
    requires i < |cs|
    ensures AppendHooks(cs[..i]) + [AppendResult(cs[i])] == AppendHooks(cs[..i + 1])
  {
    assert AppendHooks(cs[..i]) + [AppendResult(cs[i])] == AppendHooks(cs[..i + 1]);
  }

  /** `passesResult(to:)` for a list of consumers of one result: each consumer in turn, with
      no dependencies among the consumers themselves. None of them may be in the producer's
      chain. Returns the consumers. */
  method PassesResultToAll(g: OperationGraph, p: Id, cs: seq<Id>) returns (r: seq<Id>)
    requires g.Valid() && p in g.config
    requires forall i | 0 <= i < |cs| :: cs[i] in g.config && cs[i] in g.inputs && cs[i] !in OperationChain(g.deps, g.rank, p)
    modifies g
    ensures r == cs
    ensures g.Valid() && g.nextId == old(g.nextId)
    ensures WaitOnLast(old(g.deps), g.deps, Elements(cs), p)
    ensures g.config == WithHooks(old(g.config), p, PassHooks(cs))
    ensures g.status == old(g.status) && g.inputs == old(g.inputs) && g.arrays == old(g.arrays)
    ensures g.queued == old(g.queued) && g.log == old(g.log)
  {
    WithNoHooks(g.config, p);
    for i := 0 to |cs|
      invariant g.Valid() && g.nextId == old(g.nextId)
      invariant WaitOnLast(old(g.deps), g.deps, Elements(cs[..i]), p)
      invariant g.config == WithHooks(old(g.config), p, PassHooks(cs[..i]))
      invariant g.status == old(g.status) && g.inputs == old(g.inputs) && g.arrays == old(g.arrays)
      invariant g.queued == old(g.queued) && g.log == old(g.log)
    {
      ChainAwayFrom(old(g.deps), old(g.rank), g.deps, g.rank, Elements(cs[..i]), p);
      ghost var before := g.deps;
      var _ := PassesResult(g, p, cs[i]);
      WaitOnLastStep(old(g.deps), before, g.deps, Elements(cs[..i]), p, cs[i]);
      ElementsPrefix(cs, i);
      WithHooksStep(old(g.config), p, PassHooks(cs[..i]), PassResult(cs[i]));
      PassHooksPrefix(cs, i);
    }
    assert cs[..|cs|] == cs;
    r := cs;
  }

  /** `passesResult(to:)` for a list of consumers of many results. */
  method PassesResultAppendingToAll(g: OperationGraph, p: Id, cs: seq<Id>) returns (r: seq<Id>)
    requires g.Valid() && p in g.config
    requires forall i | 0 <= i < |cs| :: cs[i] in g.config && cs[i] in g.arrays && cs[i] !in OperationChain(g.deps, g.rank, p)
    modifies g
    ensures r == cs
    ensures g.Valid() && g.nextId == old(g.nextId)
    ensures WaitOnLast(old(g.deps), g.deps, Elements(cs), p)
    ensures g.config == WithHooks(old(g.config), p, AppendHooks(cs))
    ensures g.status == old(g.status) && g.inputs == old(g.inputs) && g.arrays == old(g.arrays)
    ensures g.queued == old(g.queued) && g.log == old(g.log)
  {
    WithNoHooks(g.config, p);
    for i := 0 to |cs|
      invariant g.Valid() && g.nextId == old(g.nextId)
      invariant WaitOnLast(old(g.deps), g.deps, Elements(cs[..i]), p)
      invariant g.config == WithHooks(old(g.config), p, AppendHooks(cs[..i]))
      invariant g.status == old(g.status) && g.inputs == old(g.inputs) && g.arrays == old(g.arrays)
      invariant g.queued == old(g.queued) && g.log == old(g.log)
    {
      ChainAwayFrom(old(g.deps), old(g.rank), g.deps, g.rank, Elements(cs[..i]), p);
      ghost var before := g.deps;
      var _ := PassesResultAppending(g, p, cs[i]);
      WaitOnLastStep(old(g.deps), before, g.deps, Elements(cs[..i]), p, cs[i]);
      ElementsPrefix(cs, i);
      WithHooksStep(old(g.config), p, AppendHooks(cs[..i]), AppendResult(cs[i]));
      AppendHooksPrefix(cs, i);
    }
    assert cs[..|cs|] == cs;
    r := cs;
  }

  /** `n` copies of a hook. */
  function Hooks(h: Hook, n: nat): (hs: seq<Hook>)
    ensures |hs| == n && forall i | 0 <= i < n :: hs[i] == h
    ensures multiset(hs)[h] == n
  {
    if n == 0 then [] else Hooks(h, n - 1) + [h]
  }

  /** The configurations once every producer listed in `ps` has gained, per listing, one hook
      appending its output to `c`. */
  ghost predicate AppendsTo(config0: map<Id, Config>, config: map<Id, Config>, ps: seq<Id>, c: Id) {
    && config.Keys == config0.Keys
    && forall q | q in config0 ::
         config[q] == config0[q].(willFinish := config0[q].willFinish + Hooks(AppendResult(c), multiset(ps)[q]))
  }

  /** Listing `p` once more counts it once more and nothing else. */
  lemma CountSnoc(ps: seq<Id>, p: Id, q: Id)
    ensures multiset(ps + [p])[q] == multiset(ps)[q] + (if q == p then 1 else 0)
  {
    assert multiset(ps + [p]) == multiset(ps) + multiset{p};
  }

  /** One more copy of a hook after a list of them. */
  lemma HooksSnoc(hs: seq<Hook>, h: Hook, n: nat)
    ensures hs + Hooks(h, n) + [h] == hs + Hooks(h, n + 1)
  {
  }

  /** One more producer, seen from one operation `q`. */
  lemma AppendsToAt(config0: map<Id, Config>, config: map<Id, Config>, ps: seq<Id>, c: Id, p: Id, q: Id)
    requires p in config && q in config0 && q in config
    requires config[q] == config0[q].(willFinish := config0[q].willFinish + Hooks(AppendResult(c), multiset(ps)[q]))
    ensures WithHooks(config, p, [AppendResult(c)])[q]
         == config0[q].(willFinish := config0[q].willFinish + Hooks(AppendResult(c), multiset(ps + [p])[q]))
  {
    CountSnoc(ps, p, q);
    if q == p {
      HooksSnoc(config0[q].willFinish, AppendResult(c), multiset(ps)[q]);
    }
  }

  /** One more producer keeps `AppendsTo`. */
  lemma AppendsToStep(config0: map<Id, Config>, config: map<Id, Config>, ps: seq<Id>, c: Id, p: Id)
    requires AppendsTo(config0, config, ps, c) && p in config
    ensures AppendsTo(config0, WithHooks(config, p, [AppendResult(c)]), ps + [p], c)
  {
    forall q | q in config0
      ensures WithHooks(config, p, [AppendResult(c)])[q]
           == config0[q].(willFinish := config0[q].willFinish + Hooks(AppendResult(c), multiset(ps + [p])[q]))
    {
      AppendsToAt(config0, config, ps, c, p, q);
    }
  }

  /** The configurations once each producer in `ps`, in turn, has gained a hook appending
      its output to `c`. */
  function AppendHooksOf(config: map<Id, Config>, ps: seq<Id>, c: Id): (r: map<Id, Config>)
    requires forall i | 0 <= i < |ps| :: ps[i] in config
    ensures r.Keys == config.Keys
  {
    if ps == [] then config
    else WithHooks(AppendHooksOf(config, ps[..|ps| - 1], c), ps[|ps| - 1], [AppendResult(c)])
  }

  /** One more producer is one more hook. */
  lemma AppendHooksOfStep(config: map<Id, Config>, ps: seq<Id>, c: Id, i: nat)
    requires i < |ps| && forall j | 0 <= j < |ps| :: ps[j] in config
    ensures AppendHooksOf(config, ps[..i + 1], c) == WithHooks(AppendHooksOf(config, ps[..i], c), ps[i], [AppendResult(c)])
  {
    assert ps[..i + 1][..i] == ps[..i];
  }

  /** Each producer ends up with one appending hook per listing, after its earlier hooks, and
      nothing else changes. */
  lemma {:induction false} AppendHooksOfAppends(config: map<Id, Config>, ps: seq<Id>, c: Id)
    requires forall i | 0 <= i < |ps| :: ps[i] in config
    ensures AppendsTo(config, AppendHooksOf(config, ps, c), ps, c)
  {
    if ps == [] {
      AppendsToNone(config, c);
    } else {
      var front := ps[..|ps| - 1];
      AppendHooksOfAppends(config, front, c);
      FrontLast(ps);
      AppendsToStep(config, AppendHooksOf(config, front, c), front, c, ps[|ps| - 1]);
    }
  }

  /** Before any producer, `AppendsTo` holds of the unchanged configurations. */
  lemma AppendsToNone(config: map<Id, Config>, c: Id)
    ensures AppendsTo(config, config, [], c)
  {
    forall q | q in config
      ensures config[q] == config[q].(willFinish := config[q].willFinish + Hooks(AppendResult(c), multiset([])[q]))
    {
      assert config[q].willFinish + [] == config[q].willFinish;
    }
  }

  /** A list is its front and its last element. */
  lemma FrontLast(ps: seq<Id>)
    requires ps != []
    ensures ps[..|ps| - 1] + [ps[|ps| - 1]] == ps
  {
  }

  /** Before any hook, `WithHooks` leaves the configurations unchanged. */
  lemma WithNoHooks(config: map<Id, Config>, p: Id)
    requires p in config
    ensures WithHooks(config, p, []) == config
  {
    assert config[p].willFinish + [] == config[p].willFinish;
  }

  /** `passesResults(to:)` on a list of producers: each producer in turn passes its result to
      the consumer of many results, which then waits for all of them. A producer listed twice
      gets two hooks. The consumer must be in no producer's chain. Returns the consumer. */
  method PassesResults(g: OperationGraph, ps: seq<Id>, c: Id) returns (r: Id)
    requires g.Valid() && c in g.config && c in g.arrays
    requires forall i | 0 <= i < |ps| :: ps[i] in g.config && c !in OperationChain(g.deps, g.rank, ps[i])
    modifies g
    ensures r == c
    ensures g.Valid() && g.nextId == old(g.nextId)
    ensures DepsOf(g.deps, c) == DepsOf(old(g.deps), c) + Elements(ps)
    ensures forall y | y != c :: DepsOf(g.deps, y) == DepsOf(old(g.deps), y)
    ensures g.config == AppendHooksOf(old(g.config), ps, c)
    ensures g.status == old(g.status) && g.inputs == old(g.inputs) && g.arrays == old(g.arrays)
    ensures g.queued == old(g.queued) && g.log == old(g.log)
  {
    ghost var added: set<Id> := {};
    assert ps[..0] == [];
    for i := 0 to |ps|
      invariant g.Valid() && g.nextId == old(g.nextId)
      invariant DepsOf(g.deps, c) == DepsOf(old(g.deps), c) + added && added == Elements(ps[..i])
      invariant forall y | y != c :: DepsOf(g.deps, y) == DepsOf(old(g.deps), y)
      invariant g.config == AppendHooksOf(old(g.config), ps[..i], c)
      invariant g.status == old(g.status) && g.inputs == old(g.inputs) && g.arrays == old(g.arrays)
      invariant g.queued == old(g.queued) && g.log == old(g.log)
    {
      ChainAwayFrom(old(g.deps), old(g.rank), g.deps, g.rank, {c}, ps[i]);
      AppendHooksOfStep(old(g.config), ps, c, i);
      var _ := PassesResultAppending(g, ps[i], c);
      UnionStep(DepsOf(old(g.deps), c), added, ps[i]);
      ElementsPrefix(ps, i);
      added := added + {ps[i]};
    }
    assert ps[..|ps|] == ps;
    r := c;
  }

  /** What `passesResult` promises once the producer finishes: an uncancelled producer hands
      its output to the consumer before its did-finish blocks run; a cancelled one leaves the
      consumer's input as it was. A retrying producer that retries has not finished yet. */
  lemma FinishPassesResult(w: World, p: Id, c: Id, now: int)
    requires Known(w, p) && c in w.inputs && PassResult(c) in w.config[p].willFinish
    requires !IsFinished(w.status[p])
    ensures var w' := Finish(w, p, now);
            IsFinished(w'.status[p]) ==>
              w'.inputs[c] == if w.status[p].cancelled then w.inputs[c] else w.status[p].output
  {
    var s := w.status[p];
    if w.config[p].kind.Retrying? {
      var d := Retrying.OnFinish(s.output, s.failureCount, w.config[p].kind.strategy);
      var w1 := Update(w, p, s.(failureCount := d.failureCount));
      if !(d.retry && !s.cancelled) {
        FinishSequence(w1, p, now);
      }
    } else {
      FinishSequence(w, p, now);
    }
  }

  /** The same for a consumer of many results: the output is appended once per hook. */
  lemma FinishAppendsResult(w: World, p: Id, c: Id, now: int)
    requires Known(w, p) && c in w.arrays
    requires !IsFinished(w.status[p])
    ensures var w' := Finish(w, p, now);
            var n := multiset(w.config[p].willFinish)[AppendResult(c)];
            IsFinished(w'.status[p]) ==>
              w'.arrays[c] == w.arrays[c] + if w.status[p].cancelled then [] else Copies(w.status[p].output, n)
  {
    var s := w.status[p];
    if w.config[p].kind.Retrying? {
      var d := Retrying.OnFinish(s.output, s.failureCount, w.config[p].kind.strategy);
      var w1 := Update(w, p, s.(failureCount := d.failureCount));
      if !(d.retry && !s.cancelled) {
        FinishSequence(w1, p, now);
      }
    } else {
      FinishSequence(w, p, now);
    }
  }
}
