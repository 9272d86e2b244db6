/** The error kinds that cross the layers of the subscription service. */
module Errors {

  datatype Error =
    | NotFound               // repository.ErrNotFound: no row with that id
    | InvalidUserId          // service: "invalid user_id format: ..."
    | InvalidStartDate       // service: "invalid start_date format: ..."
    | InvalidEndDate         // service: "invalid end_date format: ..."
    | Storage(message: string) // a driver or database failure, wrapped with the operation's name

  /** The text `err.Error()` starts with, which the handlers put in a 500 body. */
  function Message(e: Error): string
  {
    match e
    case NotFound => "subscription not found"
    case InvalidUserId => "invalid user_id format"
    case InvalidStartDate => "invalid start_date format"
    case InvalidEndDate => "invalid end_date format"
    case Storage(msg) => msg
  }
}
