/** The user service: registration guarded by an emailed captcha, password
    login in the admin or the non-admin partition, lookup by id, and the
    development seed. Each operation is a specification function over the
    cache entries and the user table, and a method of UserService that
    performs it against the stateful collaborators. */
module Service {
  import opened Entities
  import opened Permissions
  import opened Store

  const CaptchaExpired := "验证码已失效"
  const CaptchaMismatch := "验证码不正确"
  const UserExists := "用户已存在"
  const RegisterSucceeded := "注册成功"
  const RegisterFailed := "注册失败"
  const UserNotFound := "用户不存在"
  const WrongPassword := "密码错误"

  /** The cache key a captcha for `address` lives under. */
  function CaptchaKey(address: string): (key: string)
    ensures |key| == 8 + |address| && key[..8] == "captcha_" && key[8..] == address
  {
    "captcha_" + address
  }

  /** JavaScript's `!v` for a value that is a string or null. */
  predicate Falsy(v: Option<string>) {
    v.None? || v.value == ""
  }

  /** The row register builds. Columns it does not set take fixed defaults
      here; `id` is assigned when the row is saved. */
  function NewUser(dto: RegisterUserDto, md5: string -> string, createTime: int): User {
    User(0, dto.username, md5(dto.password), dto.email, dto.nickName,
         None, None, createTime, false, false, [])
  }

  /** The reply of register and the user table after it. */
  datatype Registration = Registration(reply: Result<string>, users: seq<User>)

  /** register: the captcha must be present and non-empty, then equal to the
      submitted one, then no user of any partition may hold the username;
      only then is the row saved, and a refused save is reported, not thrown.
      `accepted` is the database's answer to the insert. */
  function RegisterStep(entries: map<string, CacheEntry>, users: seq<User>, dto: RegisterUserDto,
                        md5: string -> string, now: int, accepted: bool): Registration
  {
    var stored := Lookup(entries, CaptchaKey(dto.email));
    if Falsy(stored) then Registration(Err(BadRequest(CaptchaExpired)), users)
    else if dto.captcha != stored.value then Registration(Err(BadRequest(CaptchaMismatch)), users)
    else if FindOne(users, ByUsername(dto.username)).Some? then Registration(Err(BadRequest(UserExists)), users)
    else if !accepted then Registration(Ok(RegisterFailed), users)
    else Registration(Ok(RegisterSucceeded), users + [NewUser(dto, md5, now).(id := |users| + 1)])
  }

  /** `vo.userInfo` for a user row. */
  function InfoOf(u: User): UserInfo {
    UserInfo(u.id, u.username, u.nickName, u.email, u.phoneNumber, u.headPic, u.createTime,
             u.isFrozen, u.isAdmin, RoleNames(u.roles), Dedup(Flatten(u.roles)))
  }

  /** login: the first row with this username in the requested partition,
      then the password check; the view leaves both tokens unset. */
  function LoginResult(users: seq<User>, dto: LoginUserDto, isAdmin: bool, md5: string -> string): Result<LoginUserVo> {
    match FindOne(users, ByUsernameIn(dto.username, isAdmin))
    case None => Err(BadRequest(UserNotFound))
    case Some(u) =>
      if u.password != md5(dto.password) then Err(BadRequest(WrongPassword))
      else Ok(LoginUserVo(InfoOf(u), None, None))
  }

  /** findUserById: no guard, so a missing row ends in a TypeError when the
      null result is dereferenced. */
  function FindUserByIdResult(users: seq<User>, id: nat, isAdmin: bool): Result<UserSummary> {
    match FindOne(users, ByIdIn(id, isAdmin))
    case None => Err(TypeError)
    case Some(u) => Ok(UserSummary(u.id, u.username, u.isAdmin, RoleNames(u.roles), Dedup(Flatten(u.roles))))
  }

  // The seed written by initData, given how many rows each table held before.

  function SeedPermissions(permissionsBefore: nat): seq<Permission> {
    [Permission(permissionsBefore + 1, "ccc", "访问 ccc 接口"),
     Permission(permissionsBefore + 2, "ddd", "访问 ddd 接口")]
  }

  function SeedRoles(permissionsBefore: nat, rolesBefore: nat): seq<Role> {
    var p := SeedPermissions(permissionsBefore);
    [Role(rolesBefore + 1, "管理员", [p[0], p[1]]),
     Role(rolesBefore + 2, "普通用户", [p[0]])]
  }

  function SeedUsers(permissionsBefore: nat, rolesBefore: nat, usersBefore: nat,
                     md5: string -> string, now: int): seq<User> {
    var r := SeedRoles(permissionsBefore, rolesBefore);
    [User(usersBefore + 1, "zhangsan", md5("111111"), "xxx@xx.com", "张三",
          Some("13233323333"), None, now, false, true, [r[0]]),
     User(usersBefore + 2, "lisi", md5("222222"), "yy@yy.com", "李四",
          None, None, now, false, false, [r[1]])]
  }

  class UserService {
    const redis: RedisStore
    const db: Database
    const md5: string -> string

    constructor (redis: RedisStore, db: Database, md5: string -> string)
      ensures this.redis == redis && this.db == db && this.md5 == md5
    {
      this.redis := redis;
      this.db := db;
      this.md5 := md5;
    }

    /** `now` is the creation time the database stamps on the row and
        `accepted` its answer to the insert. */
    method Register(dto: RegisterUserDto, now: int, accepted: bool) returns (r: Result<string>)
      requires db.Valid()
      modifies db
      ensures db.Valid()
      ensures r == RegisterStep(redis.entries, old(db.users), dto, md5, now, accepted).reply
      ensures db.users == RegisterStep(redis.entries, old(db.users), dto, md5, now, accepted).users
      ensures db.permissions == old(db.permissions) && db.roles == old(db.roles)
    {
      var captcha := redis.Get(CaptchaKey(dto.email));
      if Falsy(captcha) {
        return Err(BadRequest(CaptchaExpired));
      }
      if dto.captcha != captcha.value {
        return Err(BadRequest(CaptchaMismatch));
      }
      var found := FindOne(db.users, ByUsername(dto.username));
      if found.Some? {
        return Err(BadRequest(UserExists));
      }
      var saved := db.SaveUser(NewUser(dto, md5, now), accepted);
      if saved {
        r := Ok(RegisterSucceeded);
      } else {
        r := Ok(RegisterFailed);
      }
    }

    method Login(dto: LoginUserDto, isAdmin: bool) returns (r: Result<LoginUserVo>)
      ensures r == LoginResult(db.users, dto, isAdmin, md5)
    {
      var found := FindOne(db.users, ByUsernameIn(dto.username, isAdmin));
      if found.None? {
        return Err(BadRequest(UserNotFound));
      }
      var u := found.value;
      if u.password != md5(dto.password) {
        return Err(BadRequest(WrongPassword));
      }
      var permissions := AggregatePermissions(u.roles);
      var info := UserInfo(u.id, u.username, u.nickName, u.email, u.phoneNumber, u.headPic,
                           u.createTime, u.isFrozen, u.isAdmin, RoleNames(u.roles), permissions);
      r := Ok(LoginUserVo(info, None, None));
    }

    method FindUserById(userId: nat, isAdmin: bool) returns (r: Result<UserSummary>)
      ensures r == FindUserByIdResult(db.users, userId, isAdmin)
    {
      var found := FindOne(db.users, ByIdIn(userId, isAdmin));
      if found.None? {
        return Err(TypeError);
      }
      var u := found.value;
      var permissions := AggregatePermissions(u.roles);
      r := Ok(UserSummary(u.id, u.username, u.isAdmin, RoleNames(u.roles), permissions));
    }

    /** Saves the permissions, then the roles that refer to them, then the
        users; every call appends a fresh copy of the seed. */
    method InitData(now: int)
      requires db.Valid()
      modifies db
      ensures db.Valid()
      ensures db.permissions == old(db.permissions) + SeedPermissions(|old(db.permissions)|)
      ensures db.roles == old(db.roles) + SeedRoles(|old(db.permissions)|, |old(db.roles)|)
      ensures db.users == old(db.users) +
        SeedUsers(|old(db.permissions)|, |old(db.roles)|, |old(db.users)|, md5, now)
    {
      var p := db.SavePermissions([Permission(0, "ccc", "访问 ccc 接口"),
                                   Permission(0, "ddd", "访问 ddd 接口")]);
      var r := db.SaveRoles([Role(0, "管理员", [p[0], p[1]]),
                             Role(0, "普通用户", [p[0]])]);
      var u := db.SaveUsers([User(0, "zhangsan", md5("111111"), "xxx@xx.com", "张三",
                                  Some("13233323333"), None, now, false, true, [r[0]]),
                             User(0, "lisi", md5("222222"), "yy@yy.com", "李四",
                                  None, None, now, false, false, [r[1]])]);
    }
  }
}
