/** `authenticateToken` and `adminOnly` (backend/server.js), the guards the song and user routers
    put in front of their protected routes, and the bearer-token extraction they share with logout. */
module AuthMiddleware {
  import opened Js
  import opened Http

  /** The payload `jwt.verify` and `jwt.decode` give back, as far as the application reads it. */
  datatype Claims = Claims(userId: Option<string>, role: Option<string>, exp: Option<int>)

  /** `header && header.split(' ')[1]`, taken for its truthiness: the second space-separated
      piece of the `Authorization` header, when there is one and it is not empty. */
  function BearerToken(header: Option<string>): (token: Option<string>)
    ensures token.Some? ==> token.value != "" && ' ' !in token.value
    ensures token.Some? ==> header.Some? && |Split(header.value)| >= 2 && token.value == Split(header.value)[1]
  {
    if !Truthy(header) then None
    else
      var pieces := Split(header.value);
      if |pieces| >= 2 && pieces[1] != "" then Some(pieces[1]) else None
  }

  /** `Authorization: <scheme> <token>`, with or without more words after the token, yields the token. */
  lemma BearerTokenOfHeader(scheme: string, token: string, more: Option<string>)
    requires ' ' !in scheme && ' ' !in token && token != ""
    ensures BearerToken(Some(scheme + " " + token)) == Some(token)
    ensures more.Some? ==> BearerToken(Some(scheme + " " + token + " " + more.value)) == Some(token)
  {
    SplitJoin([scheme, token]);
    assert Join([scheme, token]) == scheme + " " + token by {
      assert [scheme, token][1..] == [token];
    }
    if more.Some? {
      var h := scheme + " " + token + " " + more.value;
      var rest := Split(more.value);
      assert h == scheme + (" " + (token + (" " + more.value)));
      SplitAppend(token, " " + more.value);
      SplitSpace(more.value);
      assert Split(token + (" " + more.value)) == [token] + rest by {
        assert Split(" " + more.value)[0] == "";
        assert token + "" == token;
      }
      SplitSpace(token + (" " + more.value));
      SplitAppend(scheme, " " + (token + (" " + more.value)));
      assert Split(h)[1] == token;
    }
  }

  /** A header without a space carries no token. */
  lemma NoSpaceNoToken(h: string)
    requires ' ' !in h
    ensures BearerToken(Some(h)) == None
  {
    SplitNoSpace(h);
  }

  /** Two spaces after the scheme put an empty piece second, so no token is found. */
  lemma DoubleSpaceNoToken(scheme: string, rest: string)
    requires ' ' !in scheme
    ensures BearerToken(Some(scheme + "  " + rest)) == None
  {
    var h := scheme + "  " + rest;
    assert h == scheme + (" " + (" " + rest));
    SplitSpace(" " + rest);
    SplitSpace(rest);
    SplitAppend(scheme, " " + (" " + rest));
    assert Split(h)[1] == "";
  }

  /** The outcome of a guard: reject with a reply, or call `next` with `req.user` as it now is. */
  datatype Gate = Reject(reply: Reply) | Next(user: Option<Claims>)

  /** `authenticateToken`. `revoked` holds the registry's records and `fault` says whether the
      registry lookup throws; `verify` is `jwt.verify` with the server's secret at the current time. */
  function AuthenticateToken(header: Option<string>, revoked: map<string, int>, fault: bool,
                             verify: string -> Option<Claims>): (g: Gate)
    ensures g.Next? <==> BearerToken(header).Some? && !fault && BearerToken(header).value !in revoked
                          && verify(BearerToken(header).value).Some?
    ensures g.Next? ==> g.user == verify(BearerToken(header).value)
    ensures BearerToken(header).Some? && fault ==> g == Reject(Failure(500, "Authentication failed"))
  {
    match BearerToken(header)
    case None => Reject(Status(401))
    case Some(token) =>
      if fault then Reject(Failure(500, "Authentication failed"))
      else if token in revoked then Reject(Failure(401, "Token revoked"))
      else match verify(token)
        case None => Reject(Failure(403, "Invalid token"))
        case Some(claims) => Next(Some(claims))
  }

  /** Without a token the answer is a bare 401 and the registry is never consulted: neither its
      contents nor a failing lookup change the answer. */
  lemma MissingTokenIsBare401(header: Option<string>, r1: map<string, int>, r2: map<string, int>,
                              f1: bool, f2: bool, v1: string -> Option<Claims>, v2: string -> Option<Claims>)
    requires BearerToken(header).None?
    ensures AuthenticateToken(header, r1, f1, v1) == AuthenticateToken(header, r2, f2, v2) == Reject(Status(401))
  {
  }

  /** A revoked token gets 401 "Token revoked" even when it would pass verification. */
  lemma RevokedBeforeVerification(header: Option<string>, revoked: map<string, int>,
                                  verify: string -> Option<Claims>)
    requires BearerToken(header).Some? && BearerToken(header).value in revoked
    ensures AuthenticateToken(header, revoked, false, verify) == Reject(Failure(401, "Token revoked"))
  {
  }

  /** A failing registry lookup answers 500 "Authentication failed", whether or not the token is
      revoked and whatever `jwt.verify` would say of it. */
  lemma LookupFaultIs500(header: Option<string>, r1: map<string, int>, r2: map<string, int>,
                         v1: string -> Option<Claims>, v2: string -> Option<Claims>)
    requires BearerToken(header).Some?
    ensures AuthenticateToken(header, r1, true, v1) == AuthenticateToken(header, r2, true, v2)
            == Reject(Failure(500, "Authentication failed"))
  {
  }

  /** A token that is present and not revoked but fails verification gets 403 "Invalid token". */
  lemma UnverifiedIs403(header: Option<string>, revoked: map<string, int>, verify: string -> Option<Claims>)
    requires BearerToken(header).Some? && BearerToken(header).value !in revoked
    requires verify(BearerToken(header).value).None?
    ensures AuthenticateToken(header, revoked, false, verify) == Reject(Failure(403, "Invalid token"))
  {
  }

  /** `adminOnly`: refuses only a `req.user` that is set and whose role is not 'admin'. */
  function AdminOnly(user: Option<Claims>): (g: Gate)
    ensures g.Reject? <==> user.Some? && user.value.role != Some("admin")
    ensures g.Reject? ==> g.reply == Failure(403, "Admin access required")
    ensures g.Next? ==> g.user == user
  {
    if user.Some? && user.value.role != Some("admin") then Reject(Failure(403, "Admin access required"))
    else Next(user)
  }

  /** The middleware a route lists before its handler. */
  datatype Guard = Authenticate | RequireAdmin

  /** `authenticateToken, adminOnly`, the chain of every protected route. */
  const AdminChain: seq<Guard> := [Authenticate, RequireAdmin]

  /** Runs the guards left to right, each seeing the `req.user` its predecessors left: the request
      reaches the handler only when every guard calls `next`, and the first guard that answers
      decides the reply. */
  function RunGuards(guards: seq<Guard>, header: Option<string>, revoked: map<string, int>, fault: bool,
                     verify: string -> Option<Claims>, user: Option<Claims>): (g: Gate)
    ensures guards == [] ==> g == Next(user)
    ensures g.Next? && Authenticate in guards ==> AuthenticateToken(header, revoked, fault, verify).Next?
    ensures guards != [] && guards[0] == Authenticate && AuthenticateToken(header, revoked, fault, verify).Reject?
            ==> g == AuthenticateToken(header, revoked, fault, verify)
    ensures g.Reject? ==> guards != []
  {
    if guards == [] then Next(user)
    else
      var g := match guards[0]
        case Authenticate => AuthenticateToken(header, revoked, fault, verify)
        case RequireAdmin => AdminOnly(user);
      match g
      case Reject(reply) => Reject(reply)
      case Next(u) => RunGuards(guards[1..], header, revoked, fault, verify, u)
  }

  /** The token that gets a request through the admin chain. */
  predicate AdminAccess(header: Option<string>, revoked: map<string, int>, fault: bool, verify: string -> Option<Claims>)
  {
    && BearerToken(header).Some?
    && !fault
    && BearerToken(header).value !in revoked
    && verify(BearerToken(header).value).Some?
    && verify(BearerToken(header).value).value.role == Some("admin")
  }

  /** A request passes `authenticateToken` then `adminOnly` exactly when it carries a present,
      unrevoked, verifiable token whose role is 'admin'; `req.user` is then its claims. */
  lemma {:induction false} AdminChainAdmitsOnlyAdmins(header: Option<string>, revoked: map<string, int>, fault: bool,
                                                      verify: string -> Option<Claims>)
    ensures var g := RunGuards(AdminChain, header, revoked, fault, verify, None);
            (g.Next? <==> AdminAccess(header, revoked, fault, verify))
            && (g.Next? ==> g.user == verify(BearerToken(header).value))
  {
    var a := AuthenticateToken(header, revoked, fault, verify);
    assert AdminChain[1..] == [RequireAdmin];
    assert [RequireAdmin][1..] == [];
    if a.Next? {
      assert RunGuards(AdminChain, header, revoked, fault, verify, None)
          == RunGuards([RequireAdmin], header, revoked, fault, verify, a.user);
    }
  }

  /** `adminOnly` on its own lets a request without `req.user` through. */
  lemma AdminOnlyPassesAnonymous()
    ensures AdminOnly(None) == Next(None)
  {
  }
}
