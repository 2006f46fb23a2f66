/** The integer side of Foundation's `Progress` trees as the library builds them:
    `chainProgress` (PeakOperation/Core/Operation+Queue.swift), which splits 100 units over a
    chain, and the weighted collation that `overallProgress` (PeakOperation/ConcurrentOperation.swift)
    and a collating `GroupChainOperation` (PeakOperation/Core/GroupChainOperation.swift) perform. */
module Progresses {
  import opened Chains

  /** `addChild(_:withPendingUnitCount:)`: the child operation's progress and the parent units it stands for. */
  datatype Child = Child(op: Id, pending: int)

  /** A parent progress: its `totalUnitCount` and its children, in the order they were added. */
  datatype Progress = Progress(total: int, children: seq<Child>)

  /** The operations whose progress is a child. */
  function ChildOps(children: seq<Child>): (ops: set<Id>)
    ensures forall i | 0 <= i < |children| :: children[i].op in ops
  {
    set i | 0 <= i < |children| :: children[i].op
  }

  /** No operation is added twice. */
  predicate Distinct(children: seq<Child>) {
    forall i, j | 0 <= i < j < |children| :: children[i].op != children[j].op
  }

  /** The sum of the children's pending unit counts. */
  function PendingSum(children: seq<Child>): int {
    if children == [] then 0
    else PendingSum(children[..|children| - 1]) + children[|children| - 1].pending
  }

  /** The units a parent has completed once the children in `done` are complete: each complete
      child contributes all its pending units. */
  function CompletedUnits(children: seq<Child>, done: set<Id>): int {
    if children == [] then 0
    else CompletedUnits(children[..|children| - 1], done)
         + (if children[|children| - 1].op in done then children[|children| - 1].pending else 0)
  }

  /** Once every child is complete, the parent has completed exactly its pending units. */
  lemma {:induction false} AllDoneCompletesPending(children: seq<Child>, done: set<Id>)
    requires ChildOps(children) <= done
    ensures CompletedUnits(children, done) == PendingSum(children)
  {
    if children != [] {
      var front := children[..|children| - 1];
      assert ChildOps(front) <= ChildOps(children) by {
        forall x | x in ChildOps(front) ensures x in ChildOps(children) {
          var i :| 0 <= i < |front| && front[i].op == x;
          assert children[i].op == x;
        }
      }
      AllDoneCompletesPending(front, done);
    }
  }

  /** Without any complete child, nothing is completed. */
  lemma {:induction false} NoneDoneCompletesNothing(children: seq<Child>, done: set<Id>)
    requires ChildOps(children) !! done
    ensures CompletedUnits(children, done) == 0
  {
    if children != [] {
      var front := children[..|children| - 1];
      assert ChildOps(front) <= ChildOps(children) by {
        forall x | x in ChildOps(front) ensures x in ChildOps(children) {
          var i :| 0 <= i < |front| && front[i].op == x;
          assert children[i].op == x;
        }
      }
      NoneDoneCompletesNothing(front, done);
    }
  }

  /** Adding one more child: the facts both loops below rely on. */
  lemma AddChild(children: seq<Child>, c: Child)
    ensures ChildOps(children + [c]) == ChildOps(children) + {c.op}
    ensures PendingSum(children + [c]) == PendingSum(children) + c.pending
    ensures Distinct(children) && c.op !in ChildOps(children) ==> Distinct(children + [c])
  {
    assert (children + [c])[..|children|] == children;
    var after := children + [c];
    forall x | x in ChildOps(children) ensures x in ChildOps(after) {
      var i :| 0 <= i < |children| && children[i].op == x;
      assert after[i].op == x;
    }
    assert after[|children|].op == c.op;
  }

  /** The sum of `weight` over a set of operations. */
  ghost function SetSum(s: set<Id>, weight: map<Id, int>): int
    requires s <= weight.Keys
    decreases s
  {
    if s == {} then 0 else var x :| x in s; weight[x] + SetSum(s - {x}, weight)
  }

  /** Any member can be taken out of the sum first. */
  lemma {:induction false} SetSumRemove(s: set<Id>, weight: map<Id, int>, y: Id)
    requires s <= weight.Keys && y in s
    ensures SetSum(s, weight) == weight[y] + SetSum(s - {y}, weight)
    decreases s
  {
    var x :| x in s && SetSum(s, weight) == weight[x] + SetSum(s - {x}, weight);
    if x != y {
      SetSumRemove(s - {x}, weight, y);
      SetSumRemove(s - {y}, weight, x);
      assert s - {x} - {y} == s - {y} - {x};
    }
  }

  /** The sum over two distinct operations. */
  lemma SetSumPair(a: Id, b: Id, weight: map<Id, int>)
    requires a != b && a in weight && b in weight
    ensures SetSum({a, b}, weight) == weight[a] + weight[b]
  {
    SetSumRemove({a, b}, weight, a);
    assert {a, b} - {a} == {b};
    SetSumRemove({b}, weight, b);
    assert {b} - {b} == {};
  }

  /** Every child is weighted by its operation's weight. */
  predicate Weighted(children: seq<Child>, weight: map<Id, int>) {
    forall c | c in children :: c.op in weight && c.pending == weight[c.op]
  }

  /** What the collating loop has built once the members outside `rest` are added. */
  ghost predicate Collated(members: set<Id>, weight: map<Id, int>, rest: set<Id>, p: Progress)
    requires members <= weight.Keys
  {
    && rest <= members
    && ChildOps(p.children) == members - rest && Distinct(p.children)
    && |p.children| + |rest| == |members|
    && Weighted(p.children, weight)
    && p.total == SetSum(members - rest, weight) == PendingSum(p.children)
  }

  /** Moving one member out of `rest`. */
  lemma TakeOne(members: set<Id>, rest: set<Id>, op: Id)
    requires rest <= members && op in rest
    ensures members - (rest - {op}) == (members - rest) + {op}
    ensures (members - (rest - {op})) - {op} == members - rest
    ensures |rest - {op}| == |rest| - 1
  {
  }

  /** A child weighted by its operation's weight keeps the children weighted. */
  lemma WeightedStep(children: seq<Child>, weight: map<Id, int>, c: Child)
    requires Weighted(children, weight) && c.op in weight && c.pending == weight[c.op]
    ensures Weighted(children + [c], weight)
  {
    forall x | x in children + [c] ensures x.op in weight && x.pending == weight[x.op] {
      if x != c {
        assert x in children;
      }
    }
  }

  /** The total after one more member: its weight added to the sum over the members before. */
  lemma SumStep(members: set<Id>, weight: map<Id, int>, rest: set<Id>, op: Id)
    requires members <= weight.Keys && rest <= members && op in rest
    ensures SetSum(members - (rest - {op}), weight) == SetSum(members - rest, weight) + weight[op]
  {
    TakeOne(members, rest, op);
    SetSumRemove(members - (rest - {op}), weight, op);
  }

  /** The children after one more member: its operation added, still distinct. */
  lemma ChildrenStep(members: set<Id>, rest: set<Id>, children: seq<Child>, c: Child)
    requires rest <= members && c.op in rest
    requires ChildOps(children) == members - rest && Distinct(children) && |children| + |rest| == |members|
    ensures ChildOps(children + [c]) == members - (rest - {c.op}) && Distinct(children + [c])
    ensures |children + [c]| + |rest - {c.op}| == |members|
    ensures PendingSum(children + [c]) == PendingSum(children) + c.pending
  {
    AddChild(children, c);
    TakeOne(members, rest, c.op);
  }

  /** One turn of the collating loop keeps `Collated`. */
  lemma CollateStep(members: set<Id>, weight: map<Id, int>, rest: set<Id>, p: Progress, op: Id)
    requires members <= weight.Keys && Collated(members, weight, rest, p) && op in rest
    ensures Collated(members, weight, rest - {op},
                     Progress(p.total + weight[op], p.children + [Child(op, weight[op])]))
  {
    var c := Child(op, weight[op]);
    ChildrenStep(members, rest, p.children, c);
    WeightedStep(p.children, weight, c);
    SumStep(members, weight, rest, op);
  }

  /** The collating loop of `overallProgress` and of a collating group's initialiser: start from
      a total of 0, and for each member add its progress as a child weighted by its estimated
      seconds and add those seconds to the total. The members come out of a set, in no fixed order. */
  method Collate(members: set<Id>, weight: map<Id, int>) returns (p: Progress)
    requires members <= weight.Keys
    ensures p.total == SetSum(members, weight) == PendingSum(p.children)
    ensures ChildOps(p.children) == members && Distinct(p.children) && |p.children| == |members|
    ensures Weighted(p.children, weight)
  {
    p := Progress(0, []);
    var rest := members;
    while rest != {}
      invariant Collated(members, weight, rest, p)
      decreases |rest|
    {
      var op :| op in rest;
      var estimatedTime := weight[op];
      CollateStep(members, weight, rest, p, op);
      p := p.(children := p.children + [Child(op, estimatedTime)]);
      p := p.(total := p.total + estimatedTime);
      rest := rest - {op};
    }
    assert members - rest == members;
  }

  /** What the `chainProgress` loop has built once the members outside `rest` are added: every
      child so far holds `per` units, except that the `count`-th and last one also holds `rem`. */
  ghost predicate Split(chain: set<Id>, per: int, rem: int, rest: set<Id>, p: Progress) {
    && chain != {}
    && rest <= chain
    && |p.children| + |rest| == |chain|
    && p.total == 100
    && ChildOps(p.children) == chain - rest && Distinct(p.children)
    && (forall i | 0 <= i < |p.children| && i < |chain| - 1 :: p.children[i].pending == per)
    && (rest == {} ==> p.children[|chain| - 1].pending == per + rem)
    && PendingSum(p.children) == per * |p.children| + (if rest == {} then rem else 0)
  }

  /** Every child before position `n - 1` holds `per` units, and so does one more child
      added before that position. */
  lemma EvenStep(children: seq<Child>, per: int, n: int, c: Child)
    requires forall i | 0 <= i < |children| && i < n - 1 :: children[i].pending == per
    requires |children| < n - 1 ==> c.pending == per
    ensures forall i | 0 <= i < |children + [c]| && i < n - 1 :: (children + [c])[i].pending == per
  {
  }

  /** `per` units over one more child. */
  lemma MulStep(per: int, n: int)
    ensures per * (n + 1) == per * n + per
  {
  }

  /** One turn of the `chainProgress` loop keeps `Split`. */
  lemma SplitStep(chain: set<Id>, per: int, rem: int, rest: set<Id>, p: Progress, operation: Id)
    requires Split(chain, per, rem, rest, p) && operation in rest
    ensures var units := if |p.children| < |chain| - 1 then per else per + rem;
            Split(chain, per, rem, rest - {operation}, p.(children := p.children + [Child(operation, units)]))
  {
    var units := if |p.children| < |chain| - 1 then per else per + rem;
    var c := Child(operation, units);
    ChildrenStep(chain, rest, p.children, c);
    EvenStep(p.children, per, |chain|, c);
    MulStep(per, |p.children|);
  }

  /** `chainProgress`: a total of 100 units split evenly over the chain, each of the first
      `n - 1` children getting `100 / n` and the last one `100 / n` plus the remainder.
      The chain must not be empty: the source divides by its size. */
  method ChainProgress(chain: set<Id>) returns (p: Progress)
    requires chain != {}
    ensures p.total == 100 == PendingSum(p.children)
    ensures ChildOps(p.children) == chain && Distinct(p.children) && |p.children| == |chain|
    ensures forall i | 0 <= i < |p.children| - 1 :: p.children[i].pending == 100 / |chain|
    ensures p.children[|p.children| - 1].pending == 100 / |chain| + 100 % |chain|
  {
    var count := |chain|;
    p := Progress(100, []);
    var progressPerOperation := p.total / count;
    var remainder := p.total - progressPerOperation * count;
    assert remainder == 100 % count;
    var index := 0;
    var rest := chain;
    while rest != {}
      invariant Split(chain, progressPerOperation, remainder, rest, p) && index == |p.children|
      decreases |rest|
    {
      var operation :| operation in rest;
      SplitStep(chain, progressPerOperation, remainder, rest, p, operation);
      if index < count - 1 {
        p := p.(children := p.children + [Child(operation, progressPerOperation)]);
      } else {
        p := p.(children := p.children + [Child(operation, progressPerOperation + remainder)]);
      }
      rest := rest - {operation};
      index := index + 1;
    }
    assert chain - rest == chain;
  }
}
