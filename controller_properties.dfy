/** What the controller's flows guarantee: captcha issuance feeding
    registration, the partition each login endpoint sees, the exact claims
    and lifetimes of the tokens, and the refresh endpoint's collapse of all
    failures into one Unauthorized and its re-derivation of claims. */
module ControllerProperties {
  import opened Entities
  import opened Permissions
  import opened Store
  import opened Service
  import opened ServiceProperties
  import opened Controller

  // ---------------------------------------------------------------------
  // captcha then register

  /** After a captcha `code` was issued for `address`, a registration with
      that e-mail passes the captcha checks exactly when it submits `code`
      and `code` is not empty; an empty code reads as expired. */
  lemma CaptchaThenRegister(entries: map<string, CacheEntry>, users: seq<User>, address: string, code: string,
                            dto: RegisterUserDto, md5: string -> string, now: int, accepted: bool)
    requires dto.email == address
    ensures var issued := entries[CaptchaKey(address) := CacheEntry(code, CaptchaTtl)];
      var reply := RegisterStep(issued, users, dto, md5, now, accepted).reply;
      (code == "" ==> reply == Err(BadRequest(CaptchaExpired))) &&
      (code != "" && dto.captcha != code ==> reply == Err(BadRequest(CaptchaMismatch))) &&
      (code != "" && dto.captcha == code ==>
        reply != Err(BadRequest(CaptchaExpired)) && reply != Err(BadRequest(CaptchaMismatch)))
  {
    var issued := entries[CaptchaKey(address) := CacheEntry(code, CaptchaTtl)];
    RegisterCaptchaExpired(issued, users, dto, md5, now, accepted);
    RegisterCaptchaMismatch(issued, users, dto, md5, now, accepted);
  }

  // ---------------------------------------------------------------------
  // login endpoints

  /** The rows of one admin partition, in table order. */
  function Partition(users: seq<User>, isAdmin: bool): (part: seq<User>)
    ensures forall u :: u in part <==> u in users && u.isAdmin == isAdmin
  {
    if users == [] then []
    else (if users[0].isAdmin == isAdmin then [users[0]] else []) + Partition(users[1..], isAdmin)
  }

  lemma FindOneCons(users: seq<User>, w: Where)
    requires users != []
    ensures FindOne(users, w) == if Matches(users[0], w) then Some(users[0]) else FindOne(users[1..], w)
  {
  }

  /** A query that names the admin flag answers the same on the table and on
      that flag's partition. */
  lemma {:induction false} FindOneInPartition(users: seq<User>, w: Where, isAdmin: bool)
    requires !w.ByUsername? && w.isAdmin == isAdmin
    ensures FindOne(users, w) == FindOne(Partition(users, isAdmin), w)
  {
    if users != [] {
      FindOneInPartition(users[1..], w, isAdmin);
      FindOneCons(users, w);
      var part := Partition(users, isAdmin);
      if users[0].isAdmin == isAdmin {
        assert part == [users[0]] + Partition(users[1..], isAdmin);
        assert part[1..] == Partition(users[1..], isAdmin);
        FindOneCons(part, w);
      } else {
        assert part == Partition(users[1..], isAdmin);
        assert !Matches(users[0], w);
      }
    }
  }

  /** A login endpoint sees only the rows of its partition: the user endpoint
      (isAdmin = false) answers as if the admins were not in the table, and
      the admin endpoint (isAdmin = true) as if only admins were. */
  lemma LoginEndpointSeesOnlyItsPartition(users: seq<User>, dto: LoginUserDto, isAdmin: bool,
                                          md5: string -> string, jwt: JwtService, config: map<string, string>)
    ensures LoginEndpoint(users, dto, isAdmin, md5, jwt, config) ==
            LoginEndpoint(Partition(users, isAdmin), dto, isAdmin, md5, jwt, config)
  {
    FindOneInPartition(users, ByUsernameIn(dto.username, isAdmin), isAdmin);
  }

  /** An admin cannot log in through the user endpoint, nor a non-admin
      through the admin endpoint, whatever the password. */
  lemma LoginEndpointRejectsOtherPartition(users: seq<User>, dto: LoginUserDto, isAdmin: bool,
                                           md5: string -> string, jwt: JwtService, config: map<string, string>)
    requires forall u :: u in users && u.username == dto.username ==> u.isAdmin != isAdmin
    ensures LoginEndpoint(users, dto, isAdmin, md5, jwt, config) == Err(BadRequest(UserNotFound))
  {
    LoginUserNotFound(users, dto, isAdmin, md5);
  }

  /** A successful login carries an access token signed over exactly
      {userId, username, roles, permissions} of its view with the access
      lifetime, and a refresh token signed over exactly {userId} with the
      refresh lifetime; a failed login passes the service's error through,
      and a signing failure is not turned into an `HttpException`: it
      surfaces as `SignError`. */
  lemma LoginEndpointTokens(users: seq<User>, dto: LoginUserDto, isAdmin: bool,
                            md5: string -> string, jwt: JwtService, config: map<string, string>)
    ensures var login := LoginResult(users, dto, isAdmin, md5);
      var r := LoginEndpoint(users, dto, isAdmin, md5, jwt, config);
      (login.Err? ==> r == Err(login.error)) &&
      (login.Ok? ==>
        var info := login.value.userInfo;
        var access := jwt.sign(AccessClaims(info.id, info.username, info.roles, info.permissions), AccessLifetime(config));
        var refresh := jwt.sign(RefreshClaims(info.id), RefreshLifetime(config));
        if access.Some? && refresh.Some? then
          r.Ok? && r.value.userInfo == info &&
          r.value.accessToken == access && r.value.refreshToken == refresh
        else r == Err(SignError))
  {
  }

  // ---------------------------------------------------------------------
  // refresh

  /** Every failure of refresh is the one Unauthorized reply: a token that
      does not verify, a user id with no non-admin row (the null dereference
      in findUserById), or a signing failure. */
  lemma RefreshErrorsCollapse(users: seq<User>, token: string, jwt: JwtService, config: map<string, string>)
    ensures var r := RefreshResult(users, token, jwt, config);
      r.Err? ==> r.error == Unauthorized(TokenExpired)
    ensures var r := RefreshResult(users, token, jwt, config);
      r.Err? <==>
        jwt.verify(token).None? ||
        (forall u :: u in users ==> !(u.id == jwt.verify(token).value.userId && !u.isAdmin)) ||
        var user := FindUserByIdResult(users, jwt.verify(token).value.userId, false).value;
        SignPair(jwt, config, user.id, user.username, user.roles, user.permissions).None?
  {
    var data := jwt.verify(token);
    if data.Some? {
      FindUserByIdOutcome(users, data.value.userId, false);
    }
  }

  /** A successful refresh re-derives everything from the first non-admin
      row carrying the verified userId: the access claims hold that row's
      current username, role names and aggregated permissions, the refresh
      claims its id. */
  lemma RefreshRederives(users: seq<User>, token: string, jwt: JwtService, config: map<string, string>)
    ensures var r := RefreshResult(users, token, jwt, config);
      r.Ok? ==>
        jwt.verify(token).Some? &&
        var u := FindOne(users, ByIdIn(jwt.verify(token).value.userId, false));
        u.Some? && u.value.id == jwt.verify(token).value.userId && !u.value.isAdmin && u.value in users &&
        Some(r.value.accessToken) ==
          jwt.sign(AccessClaims(u.value.id, u.value.username, RoleNames(u.value.roles), Dedup(Flatten(u.value.roles))),
                   AccessLifetime(config)) &&
        Some(r.value.refreshToken) == jwt.sign(RefreshClaims(u.value.id), RefreshLifetime(config))
  {
    var r := RefreshResult(users, token, jwt, config);
    if r.Ok? {
      var w := ByIdIn(jwt.verify(token).value.userId, false);
      assert Matches(FindOne(users, w).value, w);
    }
  }

  /** Nothing but the userId of the verified payload reaches the new tokens:
      two tokens whose payloads share a userId refresh identically, whatever
      stale username, roles or permissions one carries, and whether it is a
      refresh token or an access token. */
  lemma RefreshIgnoresStaleClaims(users: seq<User>, token1: string, token2: string,
                                  jwt: JwtService, config: map<string, string>)
    requires jwt.verify(token1).Some? && jwt.verify(token2).Some?
    requires jwt.verify(token1).value.userId == jwt.verify(token2).value.userId
    ensures RefreshResult(users, token1, jwt, config) == RefreshResult(users, token2, jwt, config)
  {
  }

  /** Refresh resolves the user in the non-admin partition only: a userId
      held only by admin rows is refused, and admin rows never change the
      outcome. */
  lemma RefreshOnlyNonAdmins(users: seq<User>, token: string, jwt: JwtService, config: map<string, string>)
    ensures (jwt.verify(token).Some? &&
             forall u :: u in users && u.id == jwt.verify(token).value.userId ==> u.isAdmin) ==>
      RefreshResult(users, token, jwt, config) == Err(Unauthorized(TokenExpired))
    ensures RefreshResult(users, token, jwt, config) == RefreshResult(Partition(users, false), token, jwt, config)
  {
    if jwt.verify(token).Some? {
      var id := jwt.verify(token).value.userId;
      FindUserByIdOutcome(users, id, false);
      FindOneInPartition(users, ByIdIn(id, false), false);
    }
  }

  /** Logging in as a non-admin and refreshing with the refresh token, on an
      unchanged table with distinct ids and a verifier that gives back the
      signed claims: the lookup finds the logged-in row again, and refresh
      signs the same userId, username, roles and permissions with the same
      lifetimes as the login did. */
  lemma UserLoginThenRefresh(users: seq<User>, dto: LoginUserDto, md5: string -> string,
                             jwt: JwtService, config: map<string, string>)
    requires DistinctUserIds(users)
    requires var r := LoginEndpoint(users, dto, false, md5, jwt, config);
      r.Ok? ==> jwt.verify(r.value.refreshToken.value) == Some(RefreshClaims(r.value.userInfo.id))
    ensures var r := LoginEndpoint(users, dto, false, md5, jwt, config);
      r.Ok? ==>
        var info := r.value.userInfo;
        var token := r.value.refreshToken.value;
        jwt.verify(token).Some? &&
        FindUserByIdResult(users, jwt.verify(token).value.userId, false) ==
          Ok(UserSummary(info.id, info.username, false, info.roles, info.permissions)) &&
        RefreshResult(users, token, jwt, config) ==
          match SignPair(jwt, config, info.id, info.username, info.roles, info.permissions)
          case Some(pair) => Ok(pair)
          case None => Err(Unauthorized(TokenExpired))
  {
    var r := LoginEndpoint(users, dto, false, md5, jwt, config);
    if r.Ok? {
      LoginAndFindByIdAgree(users, dto, false, md5);
    }
  }

  /** The asymmetry of refresh: with distinct ids and a verifier that gives
      back the signed claims, the refresh token an admin gets from the admin
      login endpoint is always refused. */
  lemma AdminRefreshRefused(users: seq<User>, dto: LoginUserDto, md5: string -> string,
                            jwt: JwtService, config: map<string, string>)
    requires DistinctUserIds(users)
    requires var r := LoginEndpoint(users, dto, true, md5, jwt, config);
      r.Ok? ==> jwt.verify(r.value.refreshToken.value) == Some(RefreshClaims(r.value.userInfo.id))
    ensures var r := LoginEndpoint(users, dto, true, md5, jwt, config);
      r.Ok? ==> RefreshResult(users, r.value.refreshToken.value, jwt, config) == Err(Unauthorized(TokenExpired))
  {
    var r := LoginEndpoint(users, dto, true, md5, jwt, config);
    if r.Ok? {
      var u := FindOne(users, ByUsernameIn(dto.username, true)).value;
      assert Matches(u, ByUsernameIn(dto.username, true));
      forall v | v in users && v.id == u.id ensures v.isAdmin {
        var i :| 0 <= i < |users| && users[i] == v;
        var j :| 0 <= j < |users| && users[j] == u;
      }
      RefreshOnlyNonAdmins(users, r.value.refreshToken.value, jwt, config);
    }
  }

  /** On the service's user table, whose ids follow the insertion order, the
      refresh token an admin gets from `/admin/login` is refused. */
  lemma StoredAdminRefreshRefused(c: UserController, dto: LoginUserDto)
    requires c.service.db.Valid()
    requires var r := LoginEndpoint(c.service.db.users, dto, true, c.service.md5, c.jwt, c.config);
      r.Ok? ==> c.jwt.verify(r.value.refreshToken.value) == Some(RefreshClaims(r.value.userInfo.id))
    ensures var r := LoginEndpoint(c.service.db.users, dto, true, c.service.md5, c.jwt, c.config);
      r.Ok? ==> RefreshResult(c.service.db.users, r.value.refreshToken.value, c.jwt, c.config) ==
                Err(Unauthorized(TokenExpired))
  {
    c.service.db.UsersDistinct();
    AdminRefreshRefused(c.service.db.users, dto, c.service.md5, c.jwt, c.config);
  }
}
