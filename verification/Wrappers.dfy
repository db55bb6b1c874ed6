/** Values that may be absent. */
module Wrappers {

  /** An optional column; a failed lookup or an aborted transaction when used as a result. */
  datatype Option<+T> = None | Some(value: T) {
    predicate IsFailure() { None? }
    function PropagateFailure<U>(): Option<U> requires None? { None }
    function Extract(): T requires Some? { value }
    function GetOr(default: T): T { if Some? then value else default }
  }
}
