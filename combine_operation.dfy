/** `CombineOperation.combine(input:)` (Sources/PeakOperation/CombineOperation.swift):
    merge an ordered list of results into one result holding the list of values. */
module Combining {
  import opened Results

  /** The positions of the failures in `input`, in increasing order. */
  function FailureIndices<T>(input: seq<Result<T>>): (idx: seq<nat>)
    ensures forall j | 0 <= j < |idx| :: idx[j] < |input| && input[idx[j]].Failure?
    ensures forall i | 0 <= i < |input| && input[i].Failure? :: i in idx
    ensures forall j, k | 0 <= j < k < |idx| :: idx[j] < idx[k]
  {
    if input == [] then []
    else
      var front := FailureIndices(input[..|input| - 1]);
      if input[|input| - 1].Failure? then front + [|input| - 1] else front
  }

  /** The `compactMap` that collects the error of every failure. Its contract says that it lists
      the failures' errors one for one with their positions, in input order. */
  function FailuresOf<T>(input: seq<Result<T>>): (es: seq<Error>)
    ensures |es| == |FailureIndices(input)|
    ensures forall j | 0 <= j < |es| :: es[j] == input[FailureIndices(input)[j]].error
  {
    if input == [] then []
    else
      var front := FailuresOf(input[..|input| - 1]);
      ghost var frontIdx := FailureIndices(input[..|input| - 1]);
      assert forall j | 0 <= j < |frontIdx| :: frontIdx[j] < |input| - 1;
      if input[|input| - 1].Failure? then front + [input[|input| - 1].error] else front
  }

  /** There are no errors to report exactly when every input succeeded. */
  lemma NoFailuresIffAllSucceed<T>(input: seq<Result<T>>)
    ensures FailuresOf(input) == [] <==> forall i | 0 <= i < |input| :: input[i].Success?
  {
    if FailuresOf(input) != [] {
      assert input[FailureIndices(input)[0]].Failure?;
    }
  }

  /** The values of an all-success input, in order. */
  function SuccessValues<T>(input: seq<Result<T>>): (vs: seq<T>)
    requires forall i | 0 <= i < |input| :: input[i].Success?
    ensures |vs| == |input|
    ensures forall i | 0 <= i < |input| :: vs[i] == input[i].value
  {
    seq(|input|, i requires 0 <= i < |input| => input[i].value)
  }

  /** `combine(input:)`: no input is `noResult`; any failure makes the output a failure carrying
      every failure's error; otherwise the output is every value, in input order. */
  function Combine<T>(input: seq<Result<T>>): (r: Result<seq<T>>)
    ensures |input| == 0 ==> r == Failure(NoResult)
    ensures |input| > 0 && (exists i | 0 <= i < |input| :: input[i].Failure?) ==>
              r == Failure(Errors(FailuresOf(input))) && FailuresOf(input) != []
    ensures r.Success? <==> |input| > 0 && forall i | 0 <= i < |input| :: input[i].Success?
    ensures r.Success? ==> |r.value| == |input| && forall i | 0 <= i < |input| :: r.value[i] == input[i].value
  {
    NoFailuresIffAllSucceed(input);
    if |input| == 0 then Failure(NoResult)
    else
      var errors := FailuresOf(input);
      if |errors| > 0 then Failure(Errors(errors))
      else Success(SuccessValues(input))
  }

  /** The cases of the combine tests: `[success(1), failure(E), success(3)]` gives
      `failure(errors([E]))`, `[success(1), success(2)]` gives `success([1, 2])`, `[]` gives
      `failure(noResult)`. */
  lemma CombineExamples(e: Error)
    ensures Combine([Success(1), Failure(e), Success(3)]) == Failure(Errors([e]))
    ensures Combine([Success(1), Success(2)]) == Success([1, 2])
    ensures Combine<int>([]) == Failure(NoResult)
  {
    var input: seq<Result<int>> := [Success(1), Failure(e), Success(3)];
    assert input[..2][..1] == [Success(1)];
    assert input[..2] == [Success(1), Failure(e)];
    assert input[..|input| - 1] == input[..2];
    assert FailuresOf(input[..2][..1]) == [] by {
      assert [Success(1)][..0] == [];
    }
    assert FailuresOf(input) == [e];
    var ok: seq<Result<int>> := [Success(1), Success(2)];
    assert Combine(ok).value == [1, 2];
  }
}
