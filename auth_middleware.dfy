/** The token middleware of `src/middleware/auth.js`: `authRequired` reads a Bearer token and
    verifies it; `requireRoles` admits an authenticated caller whose role is listed and who
    still exists with that role. Token verification is a parameter. */
module AuthMiddleware {
  import opened Common
  import opened Users

  const BearerPrefix := "Bearer "
  const InvalidToken := Failure(401, "Invalid or expired token")
  const UserGone := Failure(401, "User no longer exists")

  predicate StartsWith(s: string, prefix: string) {
    |prefix| <= |s| && s[..|prefix|] == prefix
  }

  /** `header.startsWith('Bearer ') ? header.slice(7) : null` on `authorization || ''`. */
  function ExtractToken(header: Option<string>): (r: Option<string>)
    ensures r.Some? <==> header.Some? && StartsWith(header.value, BearerPrefix)
    ensures r.Some? ==> header.value == BearerPrefix + r.value
  {
    if header.Some? && StartsWith(header.value, BearerPrefix) then
      assert header.value == header.value[..7] + header.value[7..];
      Some(header.value[7..])
    else None
  }

  /** A token sent as `Bearer <token>` is extracted unchanged. */
  lemma BearerRoundTrip(token: string)
    ensures ExtractToken(Some(BearerPrefix + token)) == Some(token)
  {
    var h := BearerPrefix + token;
    assert h[..7] == BearerPrefix;
  }

  /** Any other scheme, or a header shorter than the prefix, yields no token. */
  lemma OtherSchemesRejected(header: string)
    requires |header| < 7 || header[..7] != BearerPrefix
    ensures ExtractToken(Some(header)) == None
  {
  }

  /** `authRequired`: a missing or empty token is 401 `Authentication required`; a token the
      verifier refuses is 401 `Invalid or expired token`; otherwise the verified payload is
      the caller. */
  function AuthRequired(header: Option<string>, verify: string -> Option<Principal>): (r: Outcome<Principal>)
    ensures (ExtractToken(header).None? || ExtractToken(header).value == "") <==> r == Fail(Unauthenticated)
    ensures ExtractToken(header).Some? && ExtractToken(header).value != "" ==>
      && (verify(ExtractToken(header).value).None? ==> r == Fail(InvalidToken))
      && (verify(ExtractToken(header).value).Some? ==> r == Ok(verify(ExtractToken(header).value).value))
    ensures r.Ok? ==> exists t :: header == Some(BearerPrefix + t) && t != "" && verify(t) == Some(r.value)
  {
    var token := ExtractToken(header);
    if token.None? || token.value == "" then Fail(Unauthenticated)
    else
      var payload := verify(token.value);
      if payload.None? then Fail(InvalidToken) else Ok(payload.value)
  }

  /** `User.exists({ _id: user.id, role: user.role })`. */
  predicate StillExists(users: seq<User>, caller: Principal) {
    exists i :: 0 <= i < |users| && users[i].id == caller.id && users[i].role == caller.role
  }

  /** `requireRoles(...roles)`: 401 without a caller, 403 for a role not listed, 401 when no
      stored user has the caller's id and role. */
  function RequireRoles(caller: Option<Principal>, roles: seq<Role>, users: seq<User>): (r: Option<Failure>)
    ensures caller.None? ==> r == Some(Unauthenticated)
    ensures caller.Some? && caller.value.role !in roles ==> r == Some(Forbidden)
    ensures caller.Some? && caller.value.role in roles && !StillExists(users, caller.value) ==> r == Some(UserGone)
    ensures r.None? <==> caller.Some? && caller.value.role in roles && StillExists(users, caller.value)
  {
    if caller.None? then Some(Unauthenticated)
    else if caller.value.role !in roles then Some(Forbidden)
    else if !StillExists(users, caller.value) then Some(UserGone)
    else None
  }

  /** Passing the gate means an account with that id holds the caller's role right now. */
  lemma GatePassedMeansAccount(caller: Option<Principal>, roles: seq<Role>, users: seq<User>)
    requires RequireRoles(caller, roles, users).None?
    ensures exists u :: u in users && u.id == caller.value.id && u.role == caller.value.role && u.role in roles
  {
    var i :| 0 <= i < |users| && users[i].id == caller.value.id && users[i].role == caller.value.role;
    assert users[i] in users;
  }
}
