/** Plain values standing in for the parts of the entity/component runtime that
    the console, diagnostics and player systems touch: optional values, results,
    and the "exactly one match" query lookup. */
module Ecs {

  datatype Option<+T> = None | Some(value: T)

  datatype Result<+R, +E> = Success(value: R) | Failure(error: E)

  /** A system's return value: it either completed or failed with an error. */
  datatype Outcome<+E> = Pass | Fail(error: E)

  /** Why a query that expects exactly one matching entity failed. */
  datatype QuerySingleError = NoEntities | MultipleEntities

  /** `Query::single` / `Query::single_mut`: succeeds exactly when the query
      matches one entity, and then yields that entity. */
  function Single<T>(matches: seq<T>): (r: Result<T, QuerySingleError>)
    ensures r.Success? <==> |matches| == 1
    ensures r.Success? ==> r.value == matches[0]
    ensures r == Failure(NoEntities) <==> |matches| == 0
    ensures r == Failure(MultipleEntities) <==> |matches| > 1
  {
    if |matches| == 0 then Failure(NoEntities)
    else if |matches| == 1 then Success(matches[0])
    else Failure(MultipleEntities)
  }
}
