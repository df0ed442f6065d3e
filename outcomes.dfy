/**
 Failure-carrying values shared by the lifecycle controller: an optional value,
 a result that is either a value or one of the errors the controller raises.
 */
module Outcomes {

  datatype Option<+T> = None | Some(value: T)

  /** The faults the controller and its collaborators raise, by cause. */
  datatype Error =
    | NoPortFound(attempts: nat)         // every candidate port was taken
    | InvalidRouters                     // neither an array nor a `.js` path
    | FileMissing(file: string)          // a `.js` path that does not exist
    | ReferenceError(identifier: string) // a name that is not defined at run time
    | NotARouteMethod(verb: string)      // `app[verb]` is not a registration function
    | NotFound(name: string)             // no instance under that name
    | CloseFailed(name: string)          // the listener reported an error on close
    | CreateFailed(name: string)         // a re-creation during reset returned false

  datatype Result<+T> = Ok(value: T) | Err(error: Error)
}
