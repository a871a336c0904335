/** The handlers of backend/routes/users.js: login, logout, and the guarded pages. */
module UserRoutes {
  import opened Js
  import opened Http
  import opened AuthMiddleware
  import opened RevokedTokenModel

  /** A user record as the login route reads it. */
  datatype User = User(id: string, username: string, role: string)

  /** The payload login passes to `jwt.sign`: exactly the user's id and role. */
  datatype SignedClaims = SignedClaims(userId: string, role: string)

  /** `expiresIn: "1h"`. */
  const TokenLifetimeSeconds: int := 3600

  /** `POST /login`. `users` maps each username to its user (`User.findOne({ username })`),
      `passwordMatches` is `user.comparePassword`, `sign` is `jwt.sign` with the server's secret
      (claims and lifetime in seconds), and `fault` says whether one of those calls throws. */
  function Login(username: string, password: string, users: map<string, User>,
                 passwordMatches: (User, string) -> bool, sign: (SignedClaims, int) -> string, fault: bool): (reply: Reply)
    ensures reply.Envelope? && reply.success <==>
              !fault && username in users && passwordMatches(users[username], password)
    ensures reply.Envelope? && reply.success ==>
              reply.code == 200
              && reply.data == TokenData(sign(SignedClaims(users[username].id, users[username].role), TokenLifetimeSeconds))
    ensures !fault && !(username in users && passwordMatches(users[username], password)) ==>
              reply == Failure(401, "Invalid credentials")
    ensures fault ==> reply == Failure(500, "Login failed")
  {
    if fault then Failure(500, "Login failed")
    else if username !in users || !passwordMatches(users[username], password) then Failure(401, "Invalid credentials")
    else
      var user := users[username];
      Success(200, TokenData(sign(SignedClaims(user.id, user.role), TokenLifetimeSeconds)))
  }

  /** An unknown username and a wrong password for a known one get the very same answer. */
  lemma LoginDoesNotRevealUsernames(u1: string, u2: string, p1: string, p2: string, users: map<string, User>,
                                    passwordMatches: (User, string) -> bool, sign: (SignedClaims, int) -> string)
    requires u1 !in users
    requires u2 in users && !passwordMatches(users[u2], p2)
    ensures Login(u1, p1, users, passwordMatches, sign, false) == Login(u2, p2, users, passwordMatches, sign, false)
  {
  }

  /** What logout does with the request's token. */
  datatype LogoutPlan =
    | NoToken                                  // answers 404 "No token provided"
    | NothingToRevoke                          // undecodable, or no truthy `exp`: answers success
    | Revoke(token: string, expiresAt: int)    // insert into the registry (`exp` seconds as milliseconds)

  /** `POST /logout` up to the insert: `decode` is `jwt.decode`, which does not check the signature. */
  function PlanLogout(header: Option<string>, decode: string -> Option<Claims>): (plan: LogoutPlan)
    ensures plan.NoToken? <==> BearerToken(header).None?
    ensures plan.Revoke? <==> BearerToken(header).Some? && decode(BearerToken(header).value).Some?
                              && decode(BearerToken(header).value).value.exp.Some?
                              && decode(BearerToken(header).value).value.exp.value != 0
    ensures plan.Revoke? ==> Some(plan.token) == BearerToken(header)
                             && plan.expiresAt == decode(plan.token).value.exp.value * 1000
  {
    match BearerToken(header)
    case None => NoToken
    case Some(token) =>
      match decode(token)
      case Some(Claims(_, _, Some(exp))) => if exp != 0 then Revoke(token, exp * 1000) else NothingToRevoke
      case _ => NothingToRevoke
  }

  const LoggedOut: Reply := Envelope(200, true, Some("Logged out successfully"), NoData)

  /** `POST /logout`: `fault` says whether the insert's database call throws. */
  method Logout(reg: Registry, header: Option<string>, decode: string -> Option<Claims>, now: int, fault: bool)
    returns (reply: Reply)
    modifies reg
    ensures match PlanLogout(header, decode)
      case NoToken => reply == Failure(404, "No token provided") && reg.records == old(reg.records)
      case NothingToRevoke => reply == LoggedOut && reg.records == old(reg.records)
      case Revoke(token, expiresAt) =>
        var r := Insert(old(reg.records), token, expiresAt, now, fault);
        && reply == (if r.Some? then LoggedOut else Failure(500, "Logout failed"))
        && reg.records == (if r.Some? then r.value else old(reg.records))
  {
    match PlanLogout(header, decode)
    case NoToken =>
      reply := Failure(404, "No token provided");
    case NothingToRevoke =>
      reply := LoggedOut;
    case Revoke(token, expiresAt) =>
      var ok := reg.Create(token, expiresAt, now, fault);
      reply := if ok then LoggedOut else Failure(500, "Logout failed");
  }

  /** Logging the same token out twice: the second insert meets the unique index and answers 500. */
  lemma SecondLogoutFails(records: map<string, int>, header: Option<string>, decode: string -> Option<Claims>,
                          now1: int, now2: int)
    requires PlanLogout(header, decode).Revoke?
    requires var p := PlanLogout(header, decode); Insert(records, p.token, p.expiresAt, now1, false).Some?
    ensures var p := PlanLogout(header, decode);
            Insert(Insert(records, p.token, p.expiresAt, now1, false).value, p.token, p.expiresAt, now2, false).None?
  {
  }

  /** Until the registry's sweep drops its record, a logged-out token is refused with 401
      "Token revoked" by `authenticateToken`, however `jwt.verify` would judge it. */
  lemma LoggedOutTokenIsRefused(records: map<string, int>, header: Option<string>, decode: string -> Option<Claims>,
                                now: int, later: int, verify: string -> Option<Claims>)
    requires PlanLogout(header, decode).Revoke?
    requires var p := PlanLogout(header, decode); Insert(records, p.token, p.expiresAt, now, false).Some?
    requires later < ExpiresAt(now)
    ensures var p := PlanLogout(header, decode);
            var after := Unexpired(Insert(records, p.token, p.expiresAt, now, false).value, later);
            AuthenticateToken(header, after, false, verify) == Reject(Failure(401, "Token revoked"))
  {
  }

  /** The registry forgets a record one hour after the logout, not at the token's own `exp`. For a
      token login issued (lifetime one hour, issued at `iat` seconds, no later than the logout), the
      token has expired by then: once the record is swept, `exp` is already past. */
  lemma {:induction false} SweptTokenHasExpired(records: map<string, int>, token: string, iat: int, later: int)
    requires token in records && iat * 1000 <= records[token]
    requires token !in Unexpired(records, later)
    ensures later / 1000 >= iat + TokenLifetimeSeconds
  {
    assert later >= ExpiresAt(records[token]);
    assert later >= (iat + TokenLifetimeSeconds) * 1000;
  }
}
