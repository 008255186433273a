/**
 * Shared result types for the controller utilities: an optional value, a
 * value-or-error result (compatible with `:-`) and a pass-or-fail outcome for
 * operations that only report success.
 */
module Outcomes {

  datatype Option<+T> = None | Some(value: T)

  /** The kinds of error the utilities report or pass through. */
  datatype Error =
    | UnsupportedResourceType(tag: string)   // a resource-type tag other than the OVDC one
    | ResourceIdNotFound(id: string)         // remove of an id that is not in the list
    | EntityNotFound                         // the VCD client's "entity not found" sentinel
    | LookupFailed(reason: string)           // any other collaborator failure
    | NotAMapping(key: string)               // a legacy sub-document that is not a mapping
    | Wrapped(context: string, cause: Error) // an error re-reported with context

  datatype Result<+T> = Ok(value: T) | Err(error: Error) {
    predicate IsFailure() { Err? }

    function PropagateFailure<U>(): Result<U>
      requires Err?
    {
      Err(error)
    }

    function Extract(): T
      requires Ok?
    {
      value
    }
  }

  datatype Outcome = Pass | Fail(error: Error)
}
