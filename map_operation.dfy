/** The mapping step of `MapOperation` and `BlockMapOperation`
    (PeakOperation/Core/MapOperation.swift). The operation itself (its input and output slots,
    execute and finish) is part of the lifecycle model; this module holds what it computes. */
module Mapping {
  import opened Results

  /** How a map operation turns its input into its output.
      - ValueMap: a `MapOperation` subclass that overrides the value-level `map(input: Input)`;
        the default result-level `map(input: Result)` then routes successes through it.
        (The base value-level map is a `fatalError`: a subclass must supply it, so the model
        only has map operations that carry one.)
      - ResultMap: a `BlockMapOperation`, whose block overrides `map(input: Result)` itself. */
  datatype Mapping<!I, O> = ValueMap(valueMap: I -> Result<O>) | ResultMap(block: Result<I> -> Result<O>)

  /** `map(input: Result)`: the default form passes a failure through untouched. */
  function MapResult<I, O>(m: Mapping<I, O>, input: Result<I>): (r: Result<O>)
    ensures m.ValueMap? && input.Success? ==> r == m.valueMap(input.value)
    ensures m.ValueMap? && input.Failure? ==> r == Failure(input.error)
    ensures m.ResultMap? ==> r == m.block(input)
  {
    match m
    case ValueMap(f) =>
      (match input
       case Success(v) => f(v)
       case Failure(e) => Failure(e))
    case ResultMap(block) => block(input)
  }

  /** A failure passes through a value-level map without the map being consulted:
      whatever two value maps are supplied, the result is the same. */
  lemma FailureIgnoresValueMap<I, O>(f: I -> Result<O>, g: I -> Result<O>, e: Error)
    ensures MapResult(ValueMap(f), Failure(e)) == MapResult(ValueMap(g), Failure(e)) == Failure(e)
  {
  }

  /** A block map is at least as general as a value map: the block that does what the default
      `map(input: Result)` does gives the same result on every input. */
  lemma BlockMapSubsumesValueMap<I, O>(f: I -> Result<O>, input: Result<I>)
    ensures MapResult(ResultMap((r: Result<I>) => MapResult(ValueMap(f), r)), input)
         == MapResult(ValueMap(f), input)
  {
  }

  /** Unlike a value map, a block map may turn a success into a failure. */
  lemma BlockMapCanFailASuccess<I, O>(v: I, e: Error)
    ensures var failing: Mapping<I, O> := ResultMap(r => Failure(e));
            MapResult(failing, Success(v)) == Failure(e)
  {
  }

  /** `init(input: Input? = nil)`: a given input value becomes a success; without one the
      input keeps its `noResult` placeholder. */
  function InitialInput<I>(input: Option<I>): (r: Result<I>)
    ensures input.Some? ==> r == Success(input.value)
    ensures input.None? ==> r == Failure(NoResult)
  {
    match input
    case Some(v) => Success(v)
    case None => NoResultYet()
  }
}
