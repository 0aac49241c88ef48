/** Result types and the row lookup shared by the modules. */
module Outcomes {

  datatype Option<+T> = None | Some(value: T)

  datatype Result<+T, +E> = Ok(value: T) | Err(error: E)

  /** The position of the first row that satisfies `p`: a SELECT on a unique key. */
  function Find<T>(rows: seq<T>, p: T -> bool): (found: Option<nat>)
    ensures found.Some? ==> found.value < |rows| && p(rows[found.value])
    ensures found.Some? ==> forall i :: 0 <= i < found.value ==> !p(rows[i])
    ensures found.None? ==> forall i :: 0 <= i < |rows| ==> !p(rows[i])
  {
    if rows == [] then None
    else if p(rows[0]) then Some(0)
    else
      match Find(rows[1..], p)
      case None => assert forall i :: 0 < i < |rows| ==> rows[i] == rows[1..][i - 1]; None
      case Some(k) => assert forall i :: 0 < i < |rows| ==> rows[i] == rows[1..][i - 1]; Some(k + 1)
  }
}
