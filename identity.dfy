/**
 * What NextAuth hands the credential provider and the callbacks: the submitted
 * credentials, the user `authorize` returns, and the token and session objects the
 * `jwt` and `session` callbacks change in place (only the `id` fields are modelled).
 */
module Identity {
  import opened Wrappers

  datatype Credentials = Credentials(email: Option<string>, password: Option<string>)

  /** The object `authorize` returns; `image` is `None` where the source leaves it out. */
  datatype AuthorizedUser = AuthorizedUser(id: string, name: string, email: string, image: Option<string>)

  class Token {
    var id: Option<string>

    constructor (id: Option<string>)
      ensures this.id == id
    {
      this.id := id;
    }
  }

  /** `session.user` may be missing (`hasUser`); `userId` is `session.user.id`. */
  class Session {
    var hasUser: bool
    var userId: Option<string>

    constructor (hasUser: bool, userId: Option<string>)
      ensures this.hasUser == hasUser && this.userId == userId
    {
      this.hasUser, this.userId := hasUser, userId;
    }
  }
}
