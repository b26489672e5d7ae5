/** The user controller's own logic: issuing a captcha into the cache, the
    two login endpoints (one per admin partition) that attach an access and
    a refresh token to the login view, and the refresh endpoint that trades
    a verified token for a new pair built from current data. The token
    service and the configuration are abstract: a signer and a verifier
    given as functions, and a map of configuration values. */
module Controller {
  import opened Entities
  import opened Permissions
  import opened Store
  import opened Service

  const CaptchaTtl: nat := 5 * 60
  const CaptchaSent := "发送成功"
  const TokenExpired := "token 已失效，请重新登录"

  const AccessLifetimeKey := "jwt_access_token_expires_time"
  // The key is read with this spelling.
  const RefreshLifetimeKey := "jwt_refresh_token_expres_time"
  const DefaultAccessLifetime := "30m"
  const DefaultRefreshLifetime := "7d"

  /** The payloads the controller signs. */
  datatype Claims =
    | AccessClaims(userId: nat, username: string, roles: seq<string>, permissions: seq<Permission>)
    | RefreshClaims(userId: nat)

  /** `sign(claims, expiresIn)` gives a token or throws (None); `verify(token)`
      gives the payload of a token with a valid signature that has not
      expired, or throws (None). */
  datatype JwtService = JwtService(
    sign: (Claims, string) -> Option<string>,
    verify: string -> Option<Claims>)

  /** `{ access_token, refresh_token }` as refresh returns it. */
  datatype TokenPair = TokenPair(accessToken: string, refreshToken: string)

  /** `configService.get(key) || fallback` for a non-empty fallback: an
      absent or empty configured value falls back. */
  function ConfiguredOr(config: map<string, string>, key: string, fallback: string): (life: string)
    requires fallback != ""
    ensures life != ""
    ensures life == fallback || (key in config && life == config[key])
    ensures key in config && config[key] != "" ==> life == config[key]
  {
    if key in config && config[key] != "" then config[key] else fallback
  }

  function AccessLifetime(config: map<string, string>): (life: string)
    ensures AccessLifetimeKey in config && config[AccessLifetimeKey] != "" ==> life == config[AccessLifetimeKey]
    ensures (AccessLifetimeKey !in config || config[AccessLifetimeKey] == "") ==> life == "30m"
  {
    ConfiguredOr(config, AccessLifetimeKey, DefaultAccessLifetime)
  }

  function RefreshLifetime(config: map<string, string>): (life: string)
    ensures RefreshLifetimeKey in config && config[RefreshLifetimeKey] != "" ==> life == config[RefreshLifetimeKey]
    ensures (RefreshLifetimeKey !in config || config[RefreshLifetimeKey] == "") ==> life == "7d"
  {
    ConfiguredOr(config, RefreshLifetimeKey, DefaultRefreshLifetime)
  }

  /** The access token (claims userId, username, roles, permissions) is
      signed first, then the refresh token (claim userId only); None when
      either signing throws. */
  function SignPair(jwt: JwtService, config: map<string, string>, userId: nat, username: string,
                    roles: seq<string>, permissions: seq<Permission>): Option<TokenPair>
  {
    var access := jwt.sign(AccessClaims(userId, username, roles, permissions), AccessLifetime(config));
    if access.None? then None
    else
      var refresh := jwt.sign(RefreshClaims(userId), RefreshLifetime(config));
      if refresh.None? then None else Some(TokenPair(access.value, refresh.value))
  }

  /** A login endpoint: the service's login in the given partition, then
      both tokens from the view. A signing failure is not caught. */
  function LoginEndpoint(users: seq<User>, dto: LoginUserDto, isAdmin: bool, md5: string -> string,
                         jwt: JwtService, config: map<string, string>): Result<LoginUserVo>
  {
    match LoginResult(users, dto, isAdmin, md5)
    case Err(e) => Err(e)
    case Ok(vo) =>
      var info := vo.userInfo;
      match SignPair(jwt, config, info.id, info.username, info.roles, info.permissions)
      case None => Err(SignError)
      case Some(pair) => Ok(vo.(accessToken := Some(pair.accessToken), refreshToken := Some(pair.refreshToken)))
  }

  /** refresh: verify, look the user up by the token's userId in the
      non-admin partition, sign a new pair from what the lookup returned.
      Everything that fails inside the try block ends as one Unauthorized. */
  function RefreshResult(users: seq<User>, refreshToken: string, jwt: JwtService,
                         config: map<string, string>): Result<TokenPair>
  {
    match jwt.verify(refreshToken)
    case None => Err(Unauthorized(TokenExpired))
    case Some(data) =>
      match FindUserByIdResult(users, data.userId, false)
      case Err(_) => Err(Unauthorized(TokenExpired))
      case Ok(user) =>
        match SignPair(jwt, config, user.id, user.username, user.roles, user.permissions)
        case None => Err(Unauthorized(TokenExpired))
        case Some(pair) => Ok(pair)
  }

  class UserController {
    const service: UserService
    const jwt: JwtService
    const config: map<string, string>

    constructor (service: UserService, jwt: JwtService, config: map<string, string>)
      ensures this.service == service && this.jwt == jwt && this.config == config
    {
      this.service := service;
      this.jwt := jwt;
      this.config := config;
    }

    /** Stores `code` (drawn at random by the caller) for five minutes under
        the address's captcha key; the e-mail carrying it is not modelled. */
    method Captcha(address: string, code: string) returns (r: string)
      modifies service.redis
      ensures service.redis.entries == old(service.redis.entries)[CaptchaKey(address) := CacheEntry(code, CaptchaTtl)]
      ensures r == CaptchaSent
    {
      service.redis.Set(CaptchaKey(address), code, 5 * 60);
      r := CaptchaSent;
    }

    method UserLogin(dto: LoginUserDto) returns (r: Result<LoginUserVo>)
      ensures r == LoginEndpoint(service.db.users, dto, false, service.md5, jwt, config)
    {
      var vo := service.Login(dto, false);
      if vo.Err? {
        return Err(vo.error);
      }
      var info := vo.value.userInfo;
      var access := jwt.sign(AccessClaims(info.id, info.username, info.roles, info.permissions),
                             AccessLifetime(config));
      if access.None? {
        return Err(SignError);
      }
      var refresh := jwt.sign(RefreshClaims(info.id), RefreshLifetime(config));
      if refresh.None? {
        return Err(SignError);
      }
      r := Ok(vo.value.(accessToken := Some(access.value), refreshToken := Some(refresh.value)));
    }

    method AdminLogin(dto: LoginUserDto) returns (r: Result<LoginUserVo>)
      ensures r == LoginEndpoint(service.db.users, dto, true, service.md5, jwt, config)
    {
      var vo := service.Login(dto, true);
      if vo.Err? {
        return Err(vo.error);
      }
      var info := vo.value.userInfo;
      var access := jwt.sign(AccessClaims(info.id, info.username, info.roles, info.permissions),
                             AccessLifetime(config));
      if access.None? {
        return Err(SignError);
      }
      var refresh := jwt.sign(RefreshClaims(info.id), RefreshLifetime(config));
      if refresh.None? {
        return Err(SignError);
      }
      r := Ok(vo.value.(accessToken := Some(access.value), refreshToken := Some(refresh.value)));
    }

    method Refresh(refreshToken: string) returns (r: Result<TokenPair>)
      ensures r == RefreshResult(service.db.users, refreshToken, jwt, config)
    {
      var data := jwt.verify(refreshToken);
      if data.None? {
        return Err(Unauthorized(TokenExpired));
      }
      var user := service.FindUserById(data.value.userId, false);
      if user.Err? {
        return Err(Unauthorized(TokenExpired));
      }
      var u := user.value;
      var access := jwt.sign(AccessClaims(u.id, u.username, u.roles, u.permissions), AccessLifetime(config));
      if access.None? {
        return Err(Unauthorized(TokenExpired));
      }
      var refresh := jwt.sign(RefreshClaims(u.id), RefreshLifetime(config));
      if refresh.None? {
        return Err(Unauthorized(TokenExpired));
      }
      r := Ok(TokenPair(access.value, refresh.value));
    }
  }
}
