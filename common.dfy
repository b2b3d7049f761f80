/** Identifiers, roles, callers and request outcomes shared by every module. */
module Common {

  /** A database id (a Mongo ObjectId); the model only ever compares ids for equality. */
  type Id = nat

  datatype Option<T> = None | Some(value: T)

  /** The three account roles of the application. */
  datatype Role = Patient | Doctor | Admin

  /** The authenticated caller that the token middleware attaches to a request. */
  datatype Principal = Principal(id: Id, role: Role)

  /** A failed request: the HTTP status and the message of the reply.
      The `backend` controllers answer most failures with `{ success: false, message }`
      and status 200, so a failure with status 200 is such a reply. */
  datatype Failure = Failure(status: nat, message: string)

  datatype Outcome<T> = Ok(value: T) | Fail(failure: Failure)

  /** A request string that JavaScript treats as truthy: present and not empty. */
  predicate Given(s: Option<string>) {
    s.Some? && s.value != ""
  }

  /** A JavaScript `a || b` over optional values, where `None` is the falsy value. */
  function OrElse<T>(a: Option<T>, b: Option<T>): (r: Option<T>)
    ensures r.Some? <==> a.Some? || b.Some?
    ensures a.Some? ==> r == a
    ensures a.None? ==> r == b
  {
    if a.Some? then a else b
  }

  const Forbidden := Failure(403, "Insufficient permissions")
  const Unauthenticated := Failure(401, "Authentication required")
}
