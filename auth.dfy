/**
 * The live NextAuth configuration (src/auth.ts): the credentials `authorize` and the `jwt`
 * and `session` callbacks. `compare` stands for `bcrypt.compare(password, hash)`.
 */
module Auth {
  import opened Wrappers
  import opened Domain
  import opened Identity

  /**
   * `authorize`: null unless both credentials are present and non-empty, a user has this
   * exact e-mail, that user has a stored hash, and the password verifies against it; then
   * the first such user's id, name, e-mail and image.
   */
  function Authorize(c: Credentials, users: seq<User>, compare: (string, string) -> bool): (r: Option<AuthorizedUser>)
    ensures !Truthy(c.email) || !Truthy(c.password) ==> r.None?
    ensures Truthy(c.email) && (forall u :: u in users ==> u.email != c.email.value) ==> r.None?
    ensures r.Some? ==> exists i ::
      IsFirstWithEmail(users, i, c.email.value) && Truthy(users[i].password) &&
      compare(c.password.value, users[i].password.value) &&
      r.value == AuthorizedUser(users[i].id, users[i].name, users[i].email, users[i].image)
    ensures Truthy(c.email) && Truthy(c.password) &&
      (exists i :: IsFirstWithEmail(users, i, c.email.value) && Truthy(users[i].password) &&
                   compare(c.password.value, users[i].password.value))
      ==> r.Some?
  {
    if !Truthy(c.email) || !Truthy(c.password) then None
    else
      var user := FindByEmail(users, c.email.value);
      FirstIsUnique(users, c.email.value);
      if user.None? || !Truthy(user.value.password) then None
      else if !compare(c.password.value, user.value.password.value) then None
      else Some(AuthorizedUser(user.value.id, user.value.name, user.value.email, user.value.image))
  }

  lemma FirstIsUnique(users: seq<User>, email: string)
    ensures forall i, j :: IsFirstWithEmail(users, i, email) && IsFirstWithEmail(users, j, email) ==> i == j
  {
  }

  /** `jwt`: a signing-in user's id is copied into the token; otherwise the token is kept. */
  method Jwt(token: Token, user: Option<AuthorizedUser>)
    modifies token
    ensures token.id == if user.Some? then Some(user.value.id) else old(token.id)
  {
    if user.Some? {
      token.id := Some(user.value.id);
    }
  }

  /** `session`: the token's id is copied only when the session has a user and the id is set. */
  method SessionCallback(session: Session, token: Token)
    modifies session
    ensures session.hasUser == old(session.hasUser)
    ensures session.userId == if session.hasUser && Truthy(token.id) then token.id else old(session.userId)
  {
    if session.hasUser && Truthy(token.id) {
      session.userId := token.id;
    }
  }
}
