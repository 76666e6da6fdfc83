/** Values exchanged with the web layer: optional request fields, Python
    truthiness of a field, and the JSON replies the routes build. */
module Http {

  datatype Option<+T> = None | Some(value: T)

  /** An identity token as issued at login: the only claim the model keeps is
      the subject, which is the user's id. Signing and expiry are not modelled. */
  datatype Token = Token(identity: int)

  /** The JSON bodies the routes return. */
  datatype Body =
    | Error(error: string)
    | Message(message: string)
    | LoginBody(token: Token, message: string)
    | Profile(id: int, email: string)
    | Analysis(emotion: string, artUrl: string)
    | ServerError

  datatype Response = Response(status: int, body: Body)

  const Ok: int := 200
  const Created: int := 201
  const BadRequest: int := 400
  const Unauthorized: int := 401
  const NotFound: int := 404
  const Conflict: int := 409
  const InternalError: int := 500

  /** A request field is usable when it is there and is not the empty string:
      `not x` holds in Python exactly for a missing (None) or empty field. */
  predicate Present(field: Option<string>)
  {
    field.Some? && field.value != ""
  }
}
