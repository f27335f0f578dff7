/** Wire-level values shared by the controllers and the middleware chain:
    the error object handed to `next`, the JSON bodies the backend writes,
    and the two ways a route handler can end. */
module Http {

  datatype Option<T> = None | Some(value: T)

  /** `new HttpError(message, errorCode)`. A falsy `code` (absent, 0) is
      written 0 and a falsy message is written "". */
  datatype HttpError = HttpError(message: string, code: int)

  /** A user as `User.find({}, '-password')` returns it: every field of the
      record except the password hash. There is no field to leak it through. */
  datatype UserSummary = UserSummary(id: string, name: string, email: string, image: string, places: seq<string>)

  /** The JSON bodies this core writes. */
  datatype Body =
    | Empty                                               // nothing written yet
    | UsersList(users: seq<UserSummary>)                  // { users: [...] }
    | Session(userId: string, email: string, token: string) // { userId, email, token }
    | Message(message: string)                            // { message }

  /** How a handler ends: `res.status(status).json(body)`, or
      `return next(error)` into the error middleware. */
  datatype Outcome = Respond(status: int, body: Body) | Fail(error: HttpError)
}
