/**
 * The second NextAuth configuration (src/auth.config.ts). It differs from `Auth` in that
 * the lookup e-mail is lower-cased, no image is returned, and the `session` callback does
 * not check that `session.user` exists.
 */
module AuthConfig {
  import opened Wrappers
  import opened Text
  import opened Domain
  import opened Identity
  import Auth

  /**
   * `authorize`: a user is returned exactly when both credentials are present and non-empty,
   * the first user whose e-mail equals the lower-cased typed e-mail has a stored hash, and the
   * password verifies against it; only id, name and e-mail are returned.
   */
  function Authorize(c: Credentials, users: seq<User>, compare: (string, string) -> bool): (r: Option<AuthorizedUser>)
    ensures !Truthy(c.email) || !Truthy(c.password) ==> r.None?
    ensures Truthy(c.email) && (forall u :: u in users ==> u.email != Lower(c.email.value)) ==> r.None?
    ensures r.Some? ==> r.value.image.None? && exists i ::
      IsFirstWithEmail(users, i, Lower(c.email.value)) && Truthy(users[i].password) &&
      compare(c.password.value, users[i].password.value) &&
      r.value == AuthorizedUser(users[i].id, users[i].name, users[i].email, None)
    ensures Truthy(c.email) && Truthy(c.password) &&
      (exists i :: IsFirstWithEmail(users, i, Lower(c.email.value)) && Truthy(users[i].password) &&
                   compare(c.password.value, users[i].password.value))
      ==> r.Some?
  {
    if !Truthy(c.email) || !Truthy(c.password) then None
    else
      var user := FindByEmail(users, Lower(c.email.value));
      Auth.FirstIsUnique(users, Lower(c.email.value));
      if user.None? || !Truthy(user.value.password) then None
      else if !compare(c.password.value, user.value.password.value) then None
      else Some(AuthorizedUser(user.value.id, user.value.name, user.value.email, None))
  }

  /** For an e-mail that is already lower case the two configurations agree, up to the image. */
  lemma AgreesOnLowerCaseEmail(c: Credentials, users: seq<User>, compare: (string, string) -> bool)
    requires c.email.Some? && Lower(c.email.value) == c.email.value
    ensures Authorize(c, users, compare).Some? == Auth.Authorize(c, users, compare).Some?
    ensures Authorize(c, users, compare).Some? ==>
      Authorize(c, users, compare).value == Auth.Authorize(c, users, compare).value.(image := None)
  {
  }

  /**
   * A user stored with a capital letter in the e-mail (register keeps the e-mail as typed)
   * can never sign in through this configuration with that e-mail as typed: whoever is
   * returned has a different, lower-case e-mail.
   */
  lemma MixedCaseEmailNeverMatches(c: Credentials, users: seq<User>, compare: (string, string) -> bool, k: nat)
    requires c.email.Some? && k < |c.email.value| && 'A' <= c.email.value[k] <= 'Z'
    ensures Authorize(c, users, compare).Some? ==> Authorize(c, users, compare).value.email != c.email.value
  {
    var e := c.email.value;
    assert Lower(e)[k] != e[k];
  }

  /** `jwt`: as in `Auth`. */
  method Jwt(token: Token, user: Option<AuthorizedUser>)
    modifies token
    ensures token.id == if user.Some? then Some(user.value.id) else old(token.id)
  {
    if user.Some? {
      token.id := Some(user.value.id);
    }
  }

  /**
   * `session`: with the token's id set, the id is written to `session.user`; when the
   * session has no user that assignment throws (`threw`) and nothing changes.
   */
  method SessionCallback(session: Session, token: Token) returns (threw: bool)
    modifies session
    ensures threw <==> Truthy(token.id) && !session.hasUser
    ensures session.hasUser == old(session.hasUser)
    ensures session.userId == if Truthy(token.id) && session.hasUser then token.id else old(session.userId)
  {
    threw := false;
    if Truthy(token.id) {
      if !session.hasUser {
        threw := true;
        return;
      }
      session.userId := token.id;
    }
  }
}
