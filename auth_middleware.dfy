/**
 * The access-token middleware `verifyJWT`: it lets guests through with no user, otherwise takes
 * the access token from the `accessToken` cookie or the `Authorization` header, verifies it with
 * the access secret and attaches the user it names (without password and refresh token) to the
 * request.  Every failure becomes a 401.
 */
module AuthMiddleware {
  import opened Common
  import opened JsText
  import opened Jwt
  import opened UserModel

  /** What the middleware reads from a request: the `guest` query parameter, the
      `accessToken` cookie and the `Authorization` header. */
  datatype AuthRequest = AuthRequest(guest: Option<string>, cookie: Option<string>, authorization: Option<string>)

  const BearerPrefix := "Bearer "

  /** `req.cookies?.accessToken || req.header("Authorization")?.replace("Bearer ", "")`. */
  function SelectToken(req: AuthRequest): (r: Option<string>)
    ensures Truthy(req.cookie) ==> r == req.cookie
    ensures !Truthy(req.cookie) && req.authorization.None? ==> r.None?
    ensures !Truthy(req.cookie) && req.authorization.Some? ==>
      r == Some(RemoveFirst(req.authorization.value, BearerPrefix))
  {
    if Truthy(req.cookie) then req.cookie
    else if req.authorization.None? then None
    else Some(RemoveFirst(req.authorization.value, BearerPrefix))
  }

  predicate IsGuest(req: AuthRequest) {
    req.guest == Some("true")
  }

  /** What the middleware does: call `next()` with `req.user` set, or fail. */
  datatype Decision = Proceed(user: Option<PublicUser>) | Reject(status: nat, message: string)

  /** The user id a request's token authenticates, if any. */
  function TokenSubject(req: AuthRequest): Option<UserId> {
    var token := SelectToken(req);
    if !Truthy(token) then None
    else match Verify(token.value, AccessSecret)
      case None => None
      case Some(claims) => Some(claims.id)
  }

  /** `verifyJWT` against the user collection. */
  function Authenticate(req: AuthRequest, users: map<UserId, User>): (d: Decision)
    ensures IsGuest(req) ==> d == Proceed(None)
    ensures d.Reject? ==> d.status == 401
    ensures !IsGuest(req) ==>
      (d.Proceed? <==> TokenSubject(req).Some? && TokenSubject(req).value in users)
    ensures d.Proceed? && d.user.Some? ==>
      !IsGuest(req) && TokenSubject(req).Some? && TokenSubject(req).value in users
      && d.user.value == Sanitize(TokenSubject(req).value, users[TokenSubject(req).value])
    ensures !IsGuest(req) && d.Proceed? ==>
      d.user == Some(Sanitize(TokenSubject(req).value, users[TokenSubject(req).value]))
  {
    if IsGuest(req) then Proceed(None)
    else
      var token := SelectToken(req);
      if !Truthy(token) then Reject(401, "Unauthorized request")
      else match Verify(token.value, AccessSecret)
        case None => Reject(401, "invalid token")
        case Some(claims) =>
          if claims.id !in users then Reject(401, "Invalid Access Token")
          else Proceed(Some(Sanitize(claims.id, users[claims.id])))
  }

  /** The id the handlers read as `req.user._id`; `None` stands for `req.user` being `null`. */
  function Requester(d: Decision): Option<UserId>
    requires d.Proceed?
  {
    if d.user.Some? then Some(d.user.value.id) else None
  }

  /** The request as the middleware leaves it. */
  class RequestContext {
    /** `req.user`: `None` until set, `Some(None)` for `null`. */
    var user: Option<Option<PublicUser>>
    /** Whether `next()` was called. */
    var passed: bool

    constructor ()
      ensures user.None? && !passed
    {
      user := None;
      passed := false;
    }

    /** `verifyJWT(req, res, next)`. */
    method VerifyJwt(req: AuthRequest, users: map<UserId, User>) returns (r: Result<()>)
      requires !passed
      modifies this
      ensures r.Ok? <==> Authenticate(req, users).Proceed?
      ensures r.Ok? ==> passed && user == Some(Authenticate(req, users).user)
      ensures r.Err? ==> !passed && user == old(user)
      ensures r.Err? ==> r.status == Authenticate(req, users).status && r.message == Authenticate(req, users).message
    {
      if req.guest == Some("true") {
        user := Some(None);
        passed := true;
        return Ok(());
      }
      var token := SelectToken(req);
      if !Truthy(token) {
        return Err(401, "Unauthorized request");
      }
      var decodedToken := Verify(token.value, AccessSecret);
      if decodedToken.None? {
        return Err(401, "invalid token");
      }
      var id := decodedToken.value.id;
      if id !in users {
        return Err(401, "Invalid Access Token");
      }
      user := Some(Some(Sanitize(id, users[id])));
      passed := true;
      r := Ok(());
    }
  }

  /** A token from `generateAccessToken` authenticates its user when sent as the cookie. */
  lemma AccessTokenAcceptedFromCookie(users: map<UserId, User>, id: UserId, now: nat)
    requires id in users
    ensures var token := GenerateAccessToken(id, users[id], now);
      Authenticate(AuthRequest(None, Some(token), None), users) == Proceed(Some(Sanitize(id, users[id])))
  {
  }

  /** ... and when sent as `Authorization: Bearer <token>` without the cookie. */
  lemma AccessTokenAcceptedFromHeader(users: map<UserId, User>, id: UserId, now: nat)
    requires id in users
    ensures var token := GenerateAccessToken(id, users[id], now);
      Authenticate(AuthRequest(None, None, Some(BearerPrefix + token)), users)
      == Proceed(Some(Sanitize(id, users[id])))
  {
    var token := GenerateAccessToken(id, users[id], now);
    RemoveFirstPrefix(BearerPrefix, token);
  }

  /** A refresh token is never accepted as an access token. */
  lemma RefreshTokenRejected(users: map<UserId, User>, id: UserId, now: nat, guest: Option<string>)
    requires guest != Some("true")
    ensures Authenticate(AuthRequest(guest, Some(GenerateRefreshToken(id, now)), None), users).Reject?
  {
  }

  /** Removing a user's refresh token (logout) does not change what its access tokens
      authenticate: access tokens stay valid until they expire. */
  lemma RefreshTokenChangeKeepsAccess(users: map<UserId, User>, id: UserId, t: Option<string>, req: AuthRequest)
    requires id in users
    ensures Authenticate(req, users[id := users[id].(refreshToken := t)]) == Authenticate(req, users)
  {
  }
}
