/** Small value types shared by the controllers: an optional value and the
    JSON reply every Express handler sends. */
module Results {

  datatype Option<+T> = None | Some(value: T) {
    function GetOr(default: T): T {
      match this
      case Some(v) => v
      case None => default
    }
  }

  /** A handler's reply: the HTTP status and the `error` / `success` flags of
      its JSON body (a flag the body leaves out reads as false). Message
      strings are not modelled. */
  datatype Reply = Reply(status: int, error: bool, success: bool)

  const BadRequest := Reply(400, true, false)
  const Ok := Reply(200, false, true)
  const ServerError := Reply(500, true, false)
}
