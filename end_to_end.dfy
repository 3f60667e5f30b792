/**
 * Properties that span several parts of the system: registering and then signing in,
 * and what the dashboard can show of the collection route's answer.
 */
module EndToEnd {
  import opened Wrappers
  import opened Text
  import opened Domain
  import opened Schemas
  import opened Identity
  import RegisterRoute
  import Auth
  import AuthConfig
  import TasksRoute
  import Dashboard

  /**
   * A user who has just registered signs in with the same e-mail and password through
   * `src/auth.ts`, provided the hash verifies its own password (`compare(pw, hash(pw))`, as
   * bcrypt does), the hash is not empty, and the e-mail check refuses the empty string.
   */
  lemma RegisteredUserCanSignIn(body: RawRegister, users: seq<User>, newId: string,
                                isEmail: string -> bool, hash: string -> string, compare: (string, string) -> bool)
    requires RegisterRoute.Register(Some(body), users, true, newId, isEmail, hash).created.Some?
    requires compare(body.password.value, hash(body.password.value)) && hash(body.password.value) != ""
    requires !isEmail("")
    ensures var u := RegisterRoute.Register(Some(body), users, true, newId, isEmail, hash).created.value;
      Auth.Authorize(Credentials(body.email, body.password), users + [u], compare) ==
        Some(AuthorizedUser(newId, body.name.value, body.email.value, None))
  {
    var u := RegisterRoute.Register(Some(body), users, true, newId, isEmail, hash).created.value;
    var all := users + [u];
    assert all[|users|] == u;
    assert IsFirstWithEmail(all, |users|, body.email.value);
  }

  /**
   * Through `src/auth.config.ts` the same holds only for an e-mail registered in lower case;
   * a registration with a capital letter in its e-mail can never sign in there.
   */
  lemma RegisteredUserSignInConfig(body: RawRegister, users: seq<User>, newId: string,
                                   isEmail: string -> bool, hash: string -> string, compare: (string, string) -> bool)
    requires RegisterRoute.Register(Some(body), users, true, newId, isEmail, hash).created.Some?
    requires compare(body.password.value, hash(body.password.value)) && hash(body.password.value) != ""
    requires !isEmail("")
    ensures var u := RegisterRoute.Register(Some(body), users, true, newId, isEmail, hash).created.value;
      Lower(body.email.value) == body.email.value ==>
        AuthConfig.Authorize(Credentials(body.email, body.password), users + [u], compare) ==
          Some(AuthorizedUser(newId, body.name.value, body.email.value, None))
  {
    var u := RegisterRoute.Register(Some(body), users, true, newId, isEmail, hash).created.value;
    if Lower(body.email.value) == body.email.value {
      RegisteredUserCanSignIn(body, users, newId, isEmail, hash, compare);
      AuthConfig.AgreesOnLowerCaseEmail(Credentials(body.email, body.password), users + [u], compare);
    }
  }

  /** The dashboard's view of the route's answer holds only the caller's own stored tasks. */
  lemma DashboardShowsOwnTasks(session: Option<string>, store: seq<Task>, f: Dashboard.Filters, now: int,
                               format: int -> string)
    requires Truthy(session)
    ensures forall t :: t in Dashboard.View(TasksRoute.Get(session, store).body.tasks, f, now, format) ==>
      t in store && t.userId == session.value
  {
    Dashboard.ViewContents(TasksRoute.Get(session, store).body.tasks, f, now, format);
  }
}
