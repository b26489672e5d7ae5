/** Records shared by the user service and its controller: the three
    persisted entities (User, Role, Permission), the request bodies, the
    views the service hands back, and the ways a request can fail. */
module Entities {

  datatype Option<+T> = None | Some(value: T)

  /** How a call ends when it does not return normally. */
  datatype Failure =
    | BadRequest(message: string)    // HttpException with HttpStatus.BAD_REQUEST
    | Unauthorized(message: string)  // UnauthorizedException
    | TypeError                      // a property read on a null query result
    | SignError                      // JwtService.sign threw

  /** A returned value, or the exception raised instead. */
  datatype Result<+T> = Ok(value: T) | Err(error: Failure)

  /** A permission row. Its `id` stands for the identity of the loaded
      object, on the assumption that relation loading shares one object per
      row: two values are the same permission exactly when they are equal. */
  datatype Permission = Permission(id: nat, code: string, description: string)

  /** A role row with its eagerly loaded permissions, in stored order. */
  datatype Role = Role(id: nat, name: string, permissions: seq<Permission>)

  /** A user row with its eagerly loaded roles; `createTime` is in
      milliseconds, as `Date.getTime()` reports it. */
  datatype User = User(
    id: nat,
    username: string,
    password: string,
    email: string,
    nickName: string,
    phoneNumber: Option<string>,
    headPic: Option<string>,
    createTime: int,
    isFrozen: bool,
    isAdmin: bool,
    roles: seq<Role>)

  datatype RegisterUserDto = RegisterUserDto(
    username: string, nickName: string, password: string, email: string, captcha: string)

  datatype LoginUserDto = LoginUserDto(username: string, password: string)

  /** `vo.userInfo` as built by login. */
  datatype UserInfo = UserInfo(
    id: nat,
    username: string,
    nickName: string,
    email: string,
    phoneNumber: Option<string>,
    headPic: Option<string>,
    createTime: int,
    isFrozen: bool,
    isAdmin: bool,
    roles: seq<string>,
    permissions: seq<Permission>)

  /** The login view object; the service leaves both tokens unset and the
      controller fills them in. */
  datatype LoginUserVo = LoginUserVo(
    userInfo: UserInfo, accessToken: Option<string>, refreshToken: Option<string>)

  /** The narrower projection returned by findUserById. */
  datatype UserSummary = UserSummary(
    id: nat, username: string, isAdmin: bool, roles: seq<string>, permissions: seq<Permission>)
}
