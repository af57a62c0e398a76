/** The closed set of failures the handlers report, with the HTTP status each is sent with. */
module Errors {

  datatype Failure =
    | NotFound(id: string)            // "Case with ID: {id} not found"
    | TitleConflict                   // a duplicate entry on insert
    | MethodNotAllowed(httpMethod: string) // dispatch of a verb other than GET or POST
    | RequestFailed                   // the outbound call failed at the transport level
    | StorageError                    // any other database error
    | EmailConflict                   // registration with an email already stored
    | HashingFailed                   // the password hasher reported an error
    | InvalidCredentials              // login failure, whatever its cause
  {
    /** The HTTP status code the failure is answered with. */
    function Status(): (code: int)
      ensures code in {400, 404, 405, 409, 500}
    {
      match this
      case NotFound(_) => 404
      case TitleConflict => 409
      case MethodNotAllowed(_) => 405
      case RequestFailed => 500
      case StorageError => 500
      case EmailConflict => 409
      case HashingFailed => 500
      case InvalidCredentials => 400
    }
  }
}
