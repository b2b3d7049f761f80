/** The account routes of `src/routes/auth.js`: registration validates the body, refuses an
    email already registered and stores one new account; login answers the same 401 for an
    unknown email and a wrong password. Hashing, the email format test and password
    comparison are parameters; token signing is not part of this model. */
module AuthRoutes {
  import opened Common
  import opened Users

  /** The body of POST /auth/register after unknown keys are stripped. */
  datatype RegisterRequest = RegisterRequest(name: Option<string>, email: Option<string>, password: Option<string>, role: Option<string>)

  datatype LoginRequest = LoginRequest(email: Option<string>, password: Option<string>)

  const EmailTaken := Failure(409, "Email already registered")
  const InvalidCredentials := Failure(401, "Invalid credentials")

  /** Joi's message for a required string field that is missing or empty. */
  function PresenceError(field: string, value: Option<string>): (r: Option<Failure>)
    ensures r.None? <==> Given(value)
    ensures r.Some? ==> r.value.status == 400
  {
    if value.None? then Some(Failure(400, "\"" + field + "\" is required"))
    else if value.value == "" then Some(Failure(400, "\"" + field + "\" is not allowed to be empty"))
    else None
  }

  /** The registration schema: a name of 2 to 100 characters, a valid email, a password of at
      least 6 characters, and a role among the three (default `patient`). */
  function RegisterSchemaError(req: RegisterRequest, isEmail: string -> bool): (r: Option<Failure>)
    ensures r.None? <==>
      && req.name.Some? && 2 <= |req.name.value| <= 100
      && req.email.Some? && req.email.value != "" && isEmail(req.email.value)
      && req.password.Some? && |req.password.value| >= 6
      && (req.role.Some? ==> ParseRole(req.role.value).Some?)
    ensures r.Some? ==> r.value.status == 400
  {
    if !Given(req.name) then PresenceError("name", req.name)
    else if |req.name.value| < 2 then Some(Failure(400, "\"name\" length must be at least 2 characters long"))
    else if |req.name.value| > 100 then
      Some(Failure(400, "\"name\" length must be less than or equal to 100 characters long"))
    else if !Given(req.email) then PresenceError("email", req.email)
    else if !isEmail(req.email.value) then Some(Failure(400, "\"email\" must be a valid email"))
    else if !Given(req.password) then PresenceError("password", req.password)
    else if |req.password.value| < 6 then
      Some(Failure(400, "\"password\" length must be at least 6 characters long"))
    else if req.role.Some? && ParseRole(req.role.value).None? then
      Some(Failure(400, "\"role\" must be one of [patient, doctor, admin]"))
    else None
  }

  /** The role a valid registration stores. */
  function RequestedRole(req: RegisterRequest): (role: Role)
    requires req.role.Some? ==> ParseRole(req.role.value).Some?
    ensures req.role.None? ==> role == Patient
    ensures req.role.Some? ==> RoleName(role) == req.role.value
  {
    if req.role.Some? then ParseRole(req.role.value).value else Patient
  }

  /** POST /auth/register: `hash` stands for `User.hashPassword` and `now` is the creation time. */
  method Register(dir: UserDirectory, req: RegisterRequest, isEmail: string -> bool, hash: string -> string, now: int)
    returns (r: Outcome<PublicUser>)
    requires dir.Valid()
    modifies dir
    ensures dir.Valid()
    ensures RegisterSchemaError(req, isEmail).Some? ==>
      r == Fail(RegisterSchemaError(req, isEmail).value) && dir.users == old(dir.users)
    ensures RegisterSchemaError(req, isEmail).None? && HasEmail(old(dir.users), req.email.value) ==>
      r == Fail(EmailTaken) && dir.users == old(dir.users)
    ensures r.Ok? <==> RegisterSchemaError(req, isEmail).None? && !HasEmail(old(dir.users), req.email.value)
    ensures r.Ok? ==>
      var u := User(old(dir.nextId), req.name.value, req.email.value, hash(req.password.value), RequestedRole(req), now);
      && dir.users == old(dir.users) + [u]
      && r.value == Public(u)
  {
    var schemaError := RegisterSchemaError(req, isEmail);
    if schemaError.Some? {
      return Fail(schemaError.value);
    }
    if FindByEmail(dir.users, req.email.value).Some? {
      return Fail(EmailTaken);
    }
    var u := dir.Insert(req.name.value, req.email.value, hash(req.password.value), RequestedRole(req), now);
    r := Ok(Public(u));
  }

  /** The login schema: a valid email and a non-empty password. */
  function LoginSchemaError(req: LoginRequest, isEmail: string -> bool): (r: Option<Failure>)
    ensures r.None? <==> Given(req.email) && isEmail(req.email.value) && Given(req.password)
    ensures r.Some? ==> r.value.status == 400
  {
    if !Given(req.email) then PresenceError("email", req.email)
    else if !isEmail(req.email.value) then Some(Failure(400, "\"email\" must be a valid email"))
    else PresenceError("password", req.password)
  }

  /** POST /auth/login: `matches(password, hash)` stands for `comparePassword`. The reply
      carries the account's public fields; neither failure says which check failed. */
  function Login(users: seq<User>, req: LoginRequest, isEmail: string -> bool, matches: (string, string) -> bool)
    : (r: Outcome<PublicUser>)
    ensures LoginSchemaError(req, isEmail).Some? ==> r == Fail(LoginSchemaError(req, isEmail).value)
    ensures LoginSchemaError(req, isEmail).None? && !HasEmail(users, req.email.value) ==> r == Fail(InvalidCredentials)
    ensures r.Ok? ==> exists u :: u in users && u.email == req.email.value && matches(req.password.value, u.passwordHash)
                                  && r.value == Public(u)
    ensures EmailsUnique(users) && LoginSchemaError(req, isEmail).None? ==>
      (r.Ok? <==> exists u :: u in users && u.email == req.email.value && matches(req.password.value, u.passwordHash))
    ensures r.Fail? && LoginSchemaError(req, isEmail).None? ==> r == Fail(InvalidCredentials)
  {
    var schemaError := LoginSchemaError(req, isEmail);
    if schemaError.Some? then Fail(schemaError.value)
    else
      var found := FindByEmail(users, req.email.value);
      if found.None? then Fail(InvalidCredentials)
      else if !matches(req.password.value, found.value.passwordHash) then
        UniqueEmailOwner(users, found.value, req.email.value);
        Fail(InvalidCredentials)
      else Ok(Public(found.value))
  }

  /** With unique emails, the account found by email is the only one holding it. */
  lemma UniqueEmailOwner(users: seq<User>, found: User, email: string)
    requires found in users && found.email == email
    ensures EmailsUnique(users) ==> forall u :: u in users && u.email == email ==> u == found
  {
    if EmailsUnique(users) {
      forall u | u in users && u.email == email
        ensures u == found
      {
        var i :| 0 <= i < |users| && users[i] == u;
        var j :| 0 <= j < |users| && users[j] == found;
        assert i == j;
      }
    }
  }
}
