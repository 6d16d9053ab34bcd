/** Option, Result and the error kinds the backend raises. */
module Wrappers {

  datatype Option<T> = None | Some(value: T)
  {
    predicate IsSome() { Some? }
    function GetOr(default: T): T { if Some? then value else default }
  }

  /** The exceptions the services and routes raise, as values. */
  datatype Err =
    | Http(status: nat)      // fastapi HTTPException with this status code
    | ValueErr               // Python ValueError (mapped to 400 by the routes)
    | Raised                 // a plain Exception (mapped to 500 by the routes)

  datatype Result<T> = Ok(value: T) | Fail(error: Err)
  {
    predicate IsOk() { Ok? }
  }
}
