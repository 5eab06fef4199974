/** Optional values and the outcome of a call into an external service. */
module Wrappers {

  datatype Option<T> = None | Some(value: T)

  /**
   * The result of a query against Neo4j, Chroma or an LLM: either the rows
   * it returned or the exception it raised.
   */
  datatype Outcome<T> = Success(value: T) | Failure

  /** `x if isinstance(x, list) else []` after `gather(..., return_exceptions=True)`. */
  function RowsOrEmpty<T>(o: Outcome<seq<T>>): (r: seq<T>)
    ensures o.Success? ==> r == o.value
    ensures o.Failure? ==> r == []
  {
    if o.Success? then o.value else []
  }
}
