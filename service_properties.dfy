/** What registration, login, lookup by id and the seed guarantee, stated
    over the specification functions of the user service. */
module ServiceProperties {
  import opened Entities
  import opened Permissions
  import opened Store
  import opened Service

  // ---------------------------------------------------------------------
  // register

  /** The captcha check comes first: an absent or empty stored captcha is
      reported as expired whatever else the request holds, and nothing is
      written. */
  lemma RegisterCaptchaExpired(entries: map<string, CacheEntry>, users: seq<User>, dto: RegisterUserDto,
                               md5: string -> string, now: int, accepted: bool)
    ensures var s := RegisterStep(entries, users, dto, md5, now, accepted);
      (s.reply == Err(BadRequest(CaptchaExpired)) <==>
        CaptchaKey(dto.email) !in entries || entries[CaptchaKey(dto.email)].value == "")
    ensures var s := RegisterStep(entries, users, dto, md5, now, accepted);
      s.reply == Err(BadRequest(CaptchaExpired)) ==> s.users == users
  {
    assert CaptchaExpired != CaptchaMismatch && CaptchaExpired != UserExists;
  }

  /** A present captcha that differs from the submitted one is a mismatch,
      and nothing is written. */
  lemma RegisterCaptchaMismatch(entries: map<string, CacheEntry>, users: seq<User>, dto: RegisterUserDto,
                                md5: string -> string, now: int, accepted: bool)
    ensures var s := RegisterStep(entries, users, dto, md5, now, accepted);
      var key := CaptchaKey(dto.email);
      (s.reply == Err(BadRequest(CaptchaMismatch)) <==>
        key in entries && entries[key].value != "" && dto.captcha != entries[key].value)
    ensures var s := RegisterStep(entries, users, dto, md5, now, accepted);
      s.reply == Err(BadRequest(CaptchaMismatch)) ==> s.users == users
  {
    assert CaptchaMismatch != CaptchaExpired && CaptchaMismatch != UserExists;
  }

  /** Once the captcha matches, any user with the same username, admin or
      not, makes registration fail, and nothing is written. */
  lemma RegisterUserExists(entries: map<string, CacheEntry>, users: seq<User>, dto: RegisterUserDto,
                           md5: string -> string, now: int, accepted: bool)
    ensures var s := RegisterStep(entries, users, dto, md5, now, accepted);
      var key := CaptchaKey(dto.email);
      (s.reply == Err(BadRequest(UserExists)) <==>
        key in entries && entries[key].value != "" && dto.captcha == entries[key].value &&
        exists u :: u in users && u.username == dto.username)
    ensures var s := RegisterStep(entries, users, dto, md5, now, accepted);
      s.reply == Err(BadRequest(UserExists)) ==> s.users == users
  {
    assert UserExists != CaptchaExpired && UserExists != CaptchaMismatch;
    var key := CaptchaKey(dto.email);
    if key in entries && entries[key].value != "" && dto.captcha == entries[key].value {
      if exists u :: u in users && u.username == dto.username {
        var u :| u in users && u.username == dto.username;
        assert Matches(u, ByUsername(dto.username));
      }
    }
  }

  /** The table changes only on success, by exactly one appended row holding
      the submitted username, email and nickname and the hash of the
      password; a refused save answers "注册失败" instead of throwing. */
  lemma RegisterWrites(entries: map<string, CacheEntry>, users: seq<User>, dto: RegisterUserDto,
                       md5: string -> string, now: int, accepted: bool)
    ensures var s := RegisterStep(entries, users, dto, md5, now, accepted);
      s.reply != Ok(RegisterSucceeded) ==> s.users == users
    ensures var s := RegisterStep(entries, users, dto, md5, now, accepted);
      s.reply == Ok(RegisterSucceeded) ==>
        accepted && |s.users| == |users| + 1 && s.users[..|users|] == users &&
        var u := s.users[|users|];
        u.username == dto.username && u.email == dto.email && u.nickName == dto.nickName &&
        u.password == md5(dto.password) && u.id == |users| + 1
    ensures var s := RegisterStep(entries, users, dto, md5, now, accepted);
      var key := CaptchaKey(dto.email);
      (s.reply.Ok? <==>
        key in entries && entries[key].value != "" && dto.captcha == entries[key].value &&
        forall u :: u in users ==> u.username != dto.username) &&
      (s.reply.Ok? ==> s.reply == (if accepted then Ok(RegisterSucceeded) else Ok(RegisterFailed)))
  {
    assert RegisterSucceeded != RegisterFailed;
    var s := RegisterStep(entries, users, dto, md5, now, accepted);
    if s.reply == Ok(RegisterSucceeded) {
      assert s.users[..|users|] == users;
    }
    forall u | u in users ensures Matches(u, ByUsername(dto.username)) <==> u.username == dto.username {
    }
  }

  /** After a successful registration, registering the same username again
      never succeeds and writes nothing, whatever captcha is then stored. */
  lemma RegisterTwiceConflicts(entries: map<string, CacheEntry>, users: seq<User>, dto: RegisterUserDto,
                               md5: string -> string, now: int,
                               entries2: map<string, CacheEntry>, dto2: RegisterUserDto,
                               now2: int, accepted2: bool)
    requires RegisterStep(entries, users, dto, md5, now, true).reply == Ok(RegisterSucceeded)
    requires dto2.username == dto.username
    ensures var after := RegisterStep(entries, users, dto, md5, now, true).users;
      var s := RegisterStep(entries2, after, dto2, md5, now2, accepted2);
      s.reply.Err? && s.users == after
  {
    var after := RegisterStep(entries, users, dto, md5, now, true).users;
    RegisterWrites(entries, users, dto, md5, now, true);
    assert Matches(after[|users|], ByUsername(dto2.username));
  }

  // ---------------------------------------------------------------------
  // login and findUserById

  /** "用户不存在" exactly when no row has both the username and the
      requested admin flag. */
  lemma LoginUserNotFound(users: seq<User>, dto: LoginUserDto, isAdmin: bool, md5: string -> string)
    ensures LoginResult(users, dto, isAdmin, md5) == Err(BadRequest(UserNotFound)) <==>
      forall u :: u in users ==> !(u.username == dto.username && u.isAdmin == isAdmin)
  {
    assert UserNotFound != WrongPassword;
    forall u | u in users ensures Matches(u, ByUsernameIn(dto.username, isAdmin)) <==>
      u.username == dto.username && u.isAdmin == isAdmin {
    }
  }

  /** "密码错误" only for a found row whose stored hash differs from the hash
      of the submitted password; a wrong password never reads as an unknown
      user. */
  lemma LoginWrongPassword(users: seq<User>, dto: LoginUserDto, isAdmin: bool, md5: string -> string)
    ensures LoginResult(users, dto, isAdmin, md5) == Err(BadRequest(WrongPassword)) <==>
      var found := FindOne(users, ByUsernameIn(dto.username, isAdmin));
      found.Some? && found.value.password != md5(dto.password)
    ensures LoginResult(users, dto, isAdmin, md5) == Err(BadRequest(WrongPassword)) ==>
      exists u :: u in users && u.username == dto.username && u.isAdmin == isAdmin &&
        u.password != md5(dto.password)
  {
    assert UserNotFound != WrongPassword;
    var found := FindOne(users, ByUsernameIn(dto.username, isAdmin));
    if found.Some? {
      assert Matches(found.value, ByUsernameIn(dto.username, isAdmin));
    }
  }

  /** A successful login belongs to the first row of the requested
      partition with the username, and that row's hash matches; its view
      carries that row's fields, its role names in stored order, and the
      permissions of its roles without repeats, in first-seen order; no
      token is set yet. */
  lemma LoginView(users: seq<User>, dto: LoginUserDto, isAdmin: bool, md5: string -> string)
    ensures var r := LoginResult(users, dto, isAdmin, md5);
      r.Ok? ==>
        var info := r.value.userInfo;
        var found := FindOne(users, ByUsernameIn(dto.username, isAdmin));
        r.value.accessToken.None? && r.value.refreshToken.None? &&
        found.Some? &&
        var u := found.value;
        u in users && u.username == dto.username && u.isAdmin == isAdmin &&
          u.password == md5(dto.password) &&
          info.id == u.id && info.username == u.username && info.email == u.email &&
          info.nickName == u.nickName && info.isAdmin == u.isAdmin && info.isFrozen == u.isFrozen &&
          info.phoneNumber == u.phoneNumber && info.headPic == u.headPic && info.createTime == u.createTime &&
          info.roles == RoleNames(u.roles) &&
          NoDuplicates(info.permissions) &&
          (forall p :: p in info.permissions <==> exists i :: 0 <= i < |u.roles| && p in u.roles[i].permissions) &&
          (forall i, j :: 0 <= i < j < |info.permissions| ==>
            IndexOf(Flatten(u.roles), info.permissions[i]) < IndexOf(Flatten(u.roles), info.permissions[j]))
  {
    var r := LoginResult(users, dto, isAdmin, md5);
    if r.Ok? {
      var u := FindOne(users, ByUsernameIn(dto.username, isAdmin)).value;
      assert Matches(u, ByUsernameIn(dto.username, isAdmin));
      AggregatedPermissions(u.roles);
    }
  }

  /** With distinct ids, the only row `findOne({ id, isAdmin })` can answer
      is the one carrying that id. */
  lemma FindByIdFindsTheRow(users: seq<User>, u: User)
    requires DistinctUserIds(users)
    requires u in users
    ensures FindOne(users, ByIdIn(u.id, u.isAdmin)) == Some(u)
  {
    var w := ByIdIn(u.id, u.isAdmin);
    var k := FirstMatch(users, w);
    var i :| 0 <= i < |users| && users[i] == u;
    assert Matches(users[i], w);
    assert users[k].id == users[i].id;
  }

  /** For the user a login returns, findUserById in the same partition
      computes the same id, username, role names and permissions. */
  lemma LoginAndFindByIdAgree(users: seq<User>, dto: LoginUserDto, isAdmin: bool, md5: string -> string)
    requires DistinctUserIds(users)
    ensures var r := LoginResult(users, dto, isAdmin, md5);
      r.Ok? ==>
        var info := r.value.userInfo;
        FindUserByIdResult(users, info.id, isAdmin) ==
          Ok(UserSummary(info.id, info.username, info.isAdmin, info.roles, info.permissions))
  {
    var r := LoginResult(users, dto, isAdmin, md5);
    if r.Ok? {
      var u := FindOne(users, ByUsernameIn(dto.username, isAdmin)).value;
      assert u.isAdmin == isAdmin;
      FindByIdFindsTheRow(users, u);
    }
  }

  /** findUserById fails (with the null dereference) exactly when no row has
      that id in that partition, and otherwise reports the requested id. */
  lemma FindUserByIdOutcome(users: seq<User>, id: nat, isAdmin: bool)
    ensures FindUserByIdResult(users, id, isAdmin).Err? <==>
      forall u :: u in users ==> !(u.id == id && u.isAdmin == isAdmin)
    ensures FindUserByIdResult(users, id, isAdmin).Ok? ==>
      var v := FindUserByIdResult(users, id, isAdmin).value;
      v.id == id && v.isAdmin == isAdmin && NoDuplicates(v.permissions)
  {
    forall u | u in users ensures Matches(u, ByIdIn(id, isAdmin)) <==> u.id == id && u.isAdmin == isAdmin {
    }
    var found := FindOne(users, ByIdIn(id, isAdmin));
    if found.Some? {
      assert Matches(found.value, ByIdIn(id, isAdmin));
      DedupNoDuplicates(Flatten(found.value.roles));
    }
  }

  // ---------------------------------------------------------------------
  // initData

  /** The seed's admin "zhangsan" aggregates to both permissions and "lisi"
      to the first one only, though role2 shares it with role1. */
  lemma SeedAggregation(permissionsBefore: nat, rolesBefore: nat, usersBefore: nat,
                        md5: string -> string, now: int)
    ensures var u := SeedUsers(permissionsBefore, rolesBefore, usersBefore, md5, now);
      var p := SeedPermissions(permissionsBefore);
      Dedup(Flatten(u[0].roles)) == [p[0], p[1]] &&
      Dedup(Flatten(u[1].roles)) == [p[0]] &&
      RoleNames(u[0].roles) == ["管理员"] && RoleNames(u[1].roles) == ["普通用户"]
  {
    var u := SeedUsers(permissionsBefore, rolesBefore, usersBefore, md5, now);
    var p := SeedPermissions(permissionsBefore);
    assert u[0].roles[..0] == [] && u[1].roles[..0] == [];
    assert Flatten(u[0].roles) == [p[0], p[1]];
    assert Flatten(u[1].roles) == [p[0]];
    assert [p[0]][..0] == [];
    assert Dedup([p[0]]) == [p[0]];
    assert [p[0], p[1]][..1] == [p[0]];
    assert p[0] != p[1];
  }

  /** On a table without an admin "zhangsan", seeding then logging in as
      admin "zhangsan" with "111111" yields role "管理员" and both seeded
      permissions; a password whose hash differs yields "密码错误", not
      "用户不存在". */
  lemma SeedLogin(users: seq<User>, permissionsBefore: nat, rolesBefore: nat,
                  md5: string -> string, now: int, wrong: string)
    requires forall u :: u in users ==> !(u.username == "zhangsan" && u.isAdmin)
    requires md5(wrong) != md5("111111")
    ensures var seeded := users + SeedUsers(permissionsBefore, rolesBefore, |users|, md5, now);
      var p := SeedPermissions(permissionsBefore);
      var r := LoginResult(seeded, LoginUserDto("zhangsan", "111111"), true, md5);
      r.Ok? && r.value.userInfo.roles == ["管理员"] && r.value.userInfo.permissions == [p[0], p[1]] &&
      LoginResult(seeded, LoginUserDto("zhangsan", wrong), true, md5) == Err(BadRequest(WrongPassword))
  {
    var seed := SeedUsers(permissionsBefore, rolesBefore, |users|, md5, now);
    var seeded := users + seed;
    var w := ByUsernameIn("zhangsan", true);
    var k := FirstMatch(seeded, w);
    assert Matches(seeded[|users|], w);
    forall i | 0 <= i < |users| ensures !Matches(seeded[i], w) {
      assert seeded[i] in users;
    }
    assert k == |users|;
    SeedAggregation(permissionsBefore, rolesBefore, |users|, md5, now);
  }

  /** initData is not idempotent: the second run starts where the first
      left the permission and role tables (two rows each further on), and
      leaves two rows named "zhangsan", each holding its own copy of the
      管理员 role. */
  lemma SeedTwiceDuplicates(users: seq<User>, p1: nat, r1: nat, p2: nat, r2: nat,
                            md5: string -> string, now1: int, now2: int)
    requires p2 == p1 + |SeedPermissions(p1)| && r2 == r1 + |SeedRoles(p1, r1)|
    ensures var once := users + SeedUsers(p1, r1, |users|, md5, now1);
      var twice := once + SeedUsers(p2, r2, |once|, md5, now2);
      twice[|users|].username == "zhangsan" && twice[|once|].username == "zhangsan" &&
      twice[|users|].id != twice[|once|].id &&
      twice[|users|].roles[0].name == "管理员" && twice[|once|].roles[0].name == "管理员" &&
      twice[|users|].roles[0].id != twice[|once|].roles[0].id &&
      twice[|users|].roles[0].permissions[0].id != twice[|once|].roles[0].permissions[0].id
  {
  }
}
