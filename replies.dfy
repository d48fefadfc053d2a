/** What a route handler sends back: a status and a JSON body. */
module Replies {

  /** One constructor per status code the handlers use. Error replies carry
      the `{ message }` body the handlers send. */
  datatype Reply<+T> =
    | Ok(body: T)
    | Created(body: T)
    | BadRequest(message: string)
    | NotAuthorized(message: string)
    | NotFound(message: string)
    | ServerError(message: string)
  {
    function Status(): nat {
      match this
      case Ok(_) => 200
      case Created(_) => 201
      case BadRequest(_) => 400
      case NotAuthorized(_) => 401
      case NotFound(_) => 404
      case ServerError(_) => 500
    }
  }

  const MsgServerError := "Server error"
  const MsgPostNotFound := "Post not found"
  const MsgUserNotFound := "User not found"
  const MsgNotAuthorized := "Not authorized"
  const MsgPostRemoved := "Post removed"
  const MsgAlreadyLiked := "Post already liked"
  const MsgNotYetLiked := "Post has not yet been liked"
}
