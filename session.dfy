/** What the pages see of the session context and of the identity service:
    the signed-in user, the `{ user, token }` pair handed to `login`, and the
    `{ success, data, message }` body the login and register endpoints answer
    with. The context itself (persistence, restoration) is not modelled. */
module Session {
  import opened Base

  /** A signed-in user. Identifiers are "" when absent: the backend sends
      either `id` or `_id`. */
  datatype User = User(id: string, mongoId: string, name: string, email: string, role: string)

  /** The arguments of one call to the context's `login(user, token)`. */
  datatype AuthData = AuthData(user: User, token: string)

  /** The body of a login or register response. */
  datatype AuthResponse = AuthResponse(success: bool, data: Option<AuthData>, message: string)

  /** `response.success && response.data`: the response carries a session. */
  predicate Accepted(response: AuthResponse) {
    response.success && response.data.Some?
  }
}
