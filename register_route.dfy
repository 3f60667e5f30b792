/**
 * `POST` of /api/register (src/app/api/register/route.ts): validate, look for an existing
 * user with the same e-mail, then store the user with the hashed password. `hash` stands
 * for `bcrypt.hash(password, 10)` with the salt it draws; `isEmail` for Zod's e-mail check;
 * `dbUp` for whether connecting to the database succeeds.
 */
module RegisterRoute {
  import opened Wrappers
  import opened Domain
  import opened Schemas
  import opened Http

  datatype RegisterResult = RegisterResult(response: Response, created: Option<User>)

  const Failed := Response(400, ErrorBody("Registration failed"))
  const Duplicate := Response(400, ErrorBody("Email already exists"))
  const Registered := Response(201, MessageBody("User registered"))

  /**
   * The handler's outcome. Everything that throws lands in the one `catch`, which answers
   * 400 with the first Zod issue's message, or "Registration failed" for errors that carry
   * no issue list (an unreadable body, a failed connection).
   */
  function Register(body: Option<RawRegister>, users: seq<User>, dbUp: bool, newId: string,
                    isEmail: string -> bool, hash: string -> string): (r: RegisterResult)
    ensures body.None? ==> r == RegisterResult(Failed, None)
    ensures body.Some? && ParseRegister(body.value, isEmail).Invalid? ==>
      r == RegisterResult(Response(400, ErrorBody(ParseRegister(body.value, isEmail).issues[0].message)), None)
    ensures r.created.Some? <==>
      body.Some? && RegisterValid(body.value, isEmail) && dbUp &&
      forall u :: u in users ==> u.email != body.value.email.value
    ensures body.Some? && RegisterValid(body.value, isEmail) && dbUp &&
      (exists u :: u in users && u.email == body.value.email.value)
      ==> r == RegisterResult(Duplicate, None)
    ensures r.created.Some? ==>
      r.response == Registered &&
      r.created.value == User(newId, body.value.name.value, body.value.email.value,
                              Some(hash(body.value.password.value)), None)
    ensures body.Some? && RegisterValid(body.value, isEmail) && !dbUp ==> r == RegisterResult(Failed, None)
    ensures r.created.None? ==> r.response.status == 400
  {
    if body.None? then RegisterResult(Failed, None)
    else
      var parsed := ParseRegister(body.value, isEmail);
      if parsed.Invalid? then RegisterResult(Response(400, ErrorBody(parsed.issues[0].message)), None)
      else if !dbUp then RegisterResult(Failed, None)
      else
        var v := parsed.value;
        var existing := FindByEmail(users, v.email);
        if existing.Some? then RegisterResult(Duplicate, None)
        else RegisterResult(Registered, Some(User(newId, v.name, v.email, Some(hash(v.password)), None)))
  }

  predicate EmailsDistinct(users: seq<User>) {
    forall i, j :: 0 <= i < j < |users| ==> users[i].email != users[j].email
  }

  /** Registering never gives two users the same e-mail. */
  lemma RegisterKeepsEmailsDistinct(body: Option<RawRegister>, users: seq<User>, dbUp: bool, newId: string,
                                    isEmail: string -> bool, hash: string -> string)
    ensures var c := Register(body, users, dbUp, newId, isEmail, hash).created;
      EmailsDistinct(users) ==> EmailsDistinct(users + if c.Some? then [c.value] else [])
  {
    var c := Register(body, users, dbUp, newId, isEmail, hash).created;
    if c.Some? && EmailsDistinct(users) {
      var r := users + [c.value];
      forall i, j | 0 <= i < j < |r| ensures r[i].email != r[j].email {
        if j == |users| { assert r[i] in users; } else { assert r[i] == users[i] && r[j] == users[j]; }
      }
    }
  }

  /** The duplicate check is case-sensitive: "A@x.io" registers beside an existing "a@x.io". */
  lemma DuplicateCheckIsExact(u: User, newId: string, isEmail: string -> bool, hash: string -> string)
    requires u.email == "a@x.io" && isEmail("A@x.io")
    ensures Register(Some(RawRegister(Some("Al"), Some("A@x.io"), Some("secret"))), [u], true, newId,
                     isEmail, hash).created.Some?
  {
    assert RegisterValid(RawRegister(Some("Al"), Some("A@x.io"), Some("secret")), isEmail);
    assert u.email != "A@x.io" by { assert u.email[0] != "A@x.io"[0]; }
  }

  /** The user collection. */
  class UserCollection {
    var users: seq<User>

    constructor ()
      ensures users == []
    {
      users := [];
    }

    /**
     * The handler run against this collection: check, then insert. The response is
     * `Register`'s; the collection gains the created user and nothing else.
     */
    method HandleRegister(body: Option<RawRegister>, dbUp: bool, newId: string,
                          isEmail: string -> bool, hash: string -> string) returns (resp: Response)
      modifies this
      ensures resp == Register(body, old(users), dbUp, newId, isEmail, hash).response
      ensures var c := Register(body, old(users), dbUp, newId, isEmail, hash).created;
        users == old(users) + (if c.Some? then [c.value] else [])
      ensures EmailsDistinct(old(users)) ==> EmailsDistinct(users)
    {
      RegisterKeepsEmailsDistinct(body, users, dbUp, newId, isEmail, hash);
      if body.None? {
        return Failed;
      }
      var parsed := ParseRegister(body.value, isEmail);
      if parsed.Invalid? {
        return Response(400, ErrorBody(parsed.issues[0].message));
      }
      if !dbUp {
        return Failed;
      }
      var v := parsed.value;
      var existing := FindByEmail(users, v.email);
      if existing.Some? {
        return Duplicate;
      }
      var hashed := hash(v.password);
      users := users + [User(newId, v.name, v.email, Some(hashed), None)];
      resp := Registered;
    }
  }
}
