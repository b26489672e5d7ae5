# User registration, login and token refresh — a Dafny model

This project models the decision logic of a NestJS user-authentication
backend: `UserService` (`src/user/user.service.ts`) and `UserController`
(`src/user/user.controller.ts`).

- **Registration** is guarded by a captcha. The captcha was e-mailed earlier and kept in a Redis cache under `captcha_<address>` for 300 seconds.
- **Login** works on one of two partitions, admin or non-admin. It produces a view holding the user's role names and permissions.
- **Tokens.** A login issues a JWT access token and a JWT refresh token. The refresh endpoint trades a verified token for a new pair, built from the user's current data.

Collaborators are abstract:

- **Password hash.** `md5` is a function parameter of the service. It is not assumed injective.
- **JWT service.** `JwtService` holds two functions: `sign(claims, expiresIn)` and `verify(token)`. Either may fail, shown as `None`.
- **Configuration.** It is a map from keys to strings.
- **Redis cache.** `Store.RedisStore` is a class whose `entries` map is updated by `Set`.
- **Tables.** `Store.Database` is a class holding the permission, role and user tables as sequences. A user row carries its roles and their permissions, as the eager relation load returns them.
- **Database outcomes.** Whether the database accepts the insert in `register`, and the time it stamps on a row, are parameters.

Layout:

- `entities.dfy`: the records.
- `permissions.dfy`: the aggregation loop and its specification.
- `store.dfy`: cache and tables.
- `service.dfy`: service specification functions and the `UserService` class.
- `service_properties.dfy`: lemmas about the service.
- `controller.dfy`: claims, lifetimes, endpoint functions and the `UserController` class.
- `controller_properties.dfy`: lemmas about the endpoints.

Each service and controller method is proved equal to a specification function. That function's meaning is proved in the lemmas.

Permissions are aggregated with `arr.indexOf(permission)`. This compares Permission objects by identity. The model assumes that relation loading hands back one shared object per permission row. It represents that identity by the row id, held inside the value, so two permissions are the same exactly when their values are equal. Two distinct permissions that share a `code` are both kept. See "## Left out" for what this assumption does not capture.

In these details the model follows the code as written:

- The aggregated list holds Permission objects, not permission codes. The access-token claim `permissions` carries those objects too.
- `findUserById` does not guard a missing row. It dereferences `null`, which is a `TypeError`. The refresh endpoint catches that error and turns it into Unauthorized.
- The captcha check is JavaScript's `!captcha`. So an empty stored code counts as expired, the same as an absent one.
- A lifetime is `configService.get(key) || fallback`. So an empty configured value falls back to the default, the same as a missing one.
- The refresh endpoint does not look at the token's shape. An access token verifies and carries `userId` too, so it refreshes the same way (`RefreshIgnoresStaleClaims`).
- The refresh endpoint always looks the user up with `isAdmin = false`. So, given distinct ids and a verifier that gives back the signed claims, a refresh token from the admin login endpoint is always refused (`AdminRefreshRefused`).

## Model

| member | source | states |
|---|---|---|
| `Permissions.IndexOf` | src/user/user.service.ts:104 | `indexOf` answers -1 exactly when the permission is absent, and otherwise its first position |
| `Permissions.RoleNames` | src/user/user.service.ts:101 | the role-name list has one entry per role, and entry i is the name of role i |
| `Permissions.AggregatePermissions` | src/user/user.service.ts:102-109 | the accumulate-and-`indexOf` loop over roles and their permissions leaves exactly `Dedup(Flatten(roles))` in the accumulator |
| `Permissions.FlattenMembers` | src/user/user.service.ts:102-103 | a permission is in the role-by-role walk exactly when some role holds it |
| `Permissions.DedupMembers` | src/user/user.service.ts:102-109 | nothing is lost and nothing is invented: the aggregate has exactly the elements offered |
| `Permissions.DedupNoDuplicates` | src/user/user.service.ts:102-109 | the aggregate holds no permission twice |
| `Permissions.DedupFirstSeenOrder` | src/user/user.service.ts:102-109 | the aggregate lists permissions in strictly increasing order of their first occurrence in the walk |
| `Permissions.DedupUnique` | src/user/user.service.ts:102-109 | any list with the same elements as the walk, in first-occurrence order, equals the aggregate, so these properties fix the result completely |
| `Permissions.AggregatedPermissions` | src/user/user.service.ts:102-109 | for any role list the aggregate has no repeats, holds exactly the permissions of some role, and is in first-seen order |
| `Store.Lookup` | src/user/user.service.ts:39 | the cache answers a value exactly when the key is present, and that value is the stored one |
| `Store.FindOne` | src/user/user.service.ts:75-81 | `findOne` answers nothing exactly when no row matches, and otherwise a row of the table that matches |
| `Store.Database.UsersDistinct` | src/user/user.service.ts:114-122 | the ids of a well-formed user table never repeat, so a lookup by `id` has at most one row to answer |
| `Store.Database.SaveUser` | src/user/user.service.ts:63-64 | an accepted insert appends the row with the next id; a refused insert changes nothing |
| `Service.CaptchaKey` | src/user/user.service.ts:39 | the cache key is `captcha_` followed by the address |
| `Service.UserService.Register` | src/user/user.service.ts:38-70 | the reply and the new user table are those of `RegisterStep` on the cache and the old table; the role and permission tables are untouched |
| `Service.UserService.Login` | src/user/user.service.ts:74-112 | the reply is `LoginResult` on the user table; the permission list comes from the aggregation loop |
| `Service.UserService.FindUserById` | src/user/user.service.ts:114-137 | the reply is `FindUserByIdResult` on the user table |
| `Service.UserService.InitData` | src/user/user.service.ts:139-177 | appends the seed: permissions ccc and ddd, role 管理员 holding both and 普通用户 holding ccc, admin zhangsan with the first role and lisi with the second; ids follow the tables' previous sizes |
| `ServiceProperties.RegisterCaptchaExpired` | src/user/user.service.ts:39-43 | "验证码已失效" exactly when the cache holds no value, or an empty one, under `captcha_` + e-mail; this check comes first, and nothing is written |
| `ServiceProperties.RegisterCaptchaMismatch` | src/user/user.service.ts:45-47 | "验证码不正确" exactly when a non-empty stored captcha differs from the submitted one; nothing is written |
| `ServiceProperties.RegisterUserExists` | src/user/user.service.ts:49-55 | after the captcha checks pass, "用户已存在" exactly when some user, admin or not, has the username; nothing is written |
| `ServiceProperties.RegisterWrites` | src/user/user.service.ts:57-69 | the table changes only on "注册成功", by one appended row with the given username, email and nickName and password `md5(plaintext)`; once the guards pass, a refused save answers "注册失败" and does not throw |
| `ServiceProperties.RegisterTwiceConflicts` | src/user/user.service.ts:49-64 | after a successful registration, registering the same username again always fails and writes nothing |
| `ServiceProperties.LoginUserNotFound` | src/user/user.service.ts:75-85 | "用户不存在" exactly when no row has both the username and the requested `isAdmin` |
| `ServiceProperties.LoginWrongPassword` | src/user/user.service.ts:83-89 | "密码错误" exactly when a row is found and its stored hash differs from `md5(password)` |
| `ServiceProperties.LoginView` | src/user/user.service.ts:90-111 | a successful login belongs to the first row `findOne` answers for the username and flag, and its hash matches; the view copies that row's id, username, nickName, email, phoneNumber, headPic, createTime, isFrozen and isAdmin, its role names in stored order, and its permissions deduplicated, complete and in first-seen order; tokens are unset |
| `ServiceProperties.FindByIdFindsTheRow` | src/user/user.service.ts:115-121 | with distinct ids, the query by (id, isAdmin) answers the row carrying that id |
| `ServiceProperties.LoginAndFindByIdAgree` | src/user/user.service.ts:123-135 | for the user a login returns, findUserById in the same partition gives the same id, username, roles and permissions |
| `ServiceProperties.FindUserByIdOutcome` | src/user/user.service.ts:114-136 | the lookup fails (null dereference) exactly when no row has that id and flag; otherwise it reports that id and flag and a repeat-free permission list |
| `ServiceProperties.SeedAggregation` | src/user/user.service.ts:168-173 | the seeded zhangsan aggregates to [perm1, perm2] with roles ["管理员"]; lisi aggregates to [perm1] with roles ["普通用户"] |
| `ServiceProperties.SeedLogin` | src/user/user.service.ts:139-176 | after seeding, the admin login of zhangsan with "111111" gives role 管理员 and both permissions; a password with a different hash gives "密码错误" |
| `ServiceProperties.SeedTwiceDuplicates` | src/user/user.service.ts:139-176 | when the second run starts where the first left the permission and role tables, seeding twice leaves two rows named zhangsan with different ids, each holding its own 管理员 role row (different role ids) and its own copy of the ccc permission row |
| `Controller.ConfiguredOr` | src/user/user.controller.ts:66-67 | `get(key) \|\| fallback` is never empty; it is the configured value when that is present and non-empty, and the fallback otherwise |
| `Controller.AccessLifetime` | src/user/user.controller.ts:66-67 | the access lifetime is `jwt_access_token_expires_time` when set and non-empty, otherwise "30m" |
| `Controller.RefreshLifetime` | src/user/user.controller.ts:75-76 | the refresh lifetime is `jwt_refresh_token_expres_time` (spelled so) when set and non-empty, otherwise "7d" |
| `Controller.UserController.Captcha` | src/user/user.controller.ts:41-53 | stores the code under `captcha_` + address with a TTL of 300 seconds, leaves the other keys alone, and answers "发送成功" |
| `Controller.UserController.UserLogin` | src/user/user.controller.ts:55-80 | the reply is `LoginEndpoint` with `isAdmin = false` |
| `Controller.UserController.AdminLogin` | src/user/user.controller.ts:82-107 | the reply is `LoginEndpoint` with `isAdmin = true` |
| `Controller.UserController.Refresh` | src/user/user.controller.ts:109-147 | the reply is `RefreshResult` on the user table |
| `ControllerProperties.CaptchaThenRegister` | src/user/user.controller.ts:43-45 | after a code is issued for an address, registering with that e-mail passes both captcha checks exactly when it submits the code and the code is non-empty |
| `ControllerProperties.LoginEndpointSeesOnlyItsPartition` | src/user/user.controller.ts:55-84 | a login endpoint answers the same on the whole table as on its partition alone (non-admin for `/login`, admin for `/admin/login`) |
| `ControllerProperties.LoginEndpointRejectsOtherPartition` | src/user/user.controller.ts:82-84 | a username that exists only in the other partition gets "用户不存在" |
| `ControllerProperties.LoginEndpointTokens` | src/user/user.controller.ts:58-78 | access claims are exactly {userId, username, roles, permissions} of the view, with the access lifetime; refresh claims are exactly {userId}, with the refresh lifetime; service errors pass through; a signing failure is a sign error |
| `ControllerProperties.RefreshErrorsCollapse` | src/user/user.controller.ts:112-146 | every refresh failure is the single Unauthorized "token 已失效，请重新登录". This covers a token that does not verify, a missing non-admin user and a signing failure, and nothing else fails |
| `ControllerProperties.RefreshRederives` | src/user/user.controller.ts:113-138 | a successful refresh signs the current username, role names and aggregated permissions of the non-admin row that has the verified userId |
| `ControllerProperties.RefreshIgnoresStaleClaims` | src/user/user.controller.ts:113-115 | only the verified userId matters: two tokens whose payloads share it refresh identically, whatever else they carry |
| `ControllerProperties.RefreshOnlyNonAdmins` | src/user/user.controller.ts:115 | refresh queries with `isAdmin = false`: a userId held only by admins is refused, and admin rows never change the outcome |
| `ControllerProperties.UserLoginThenRefresh` | src/user/user.controller.ts:55-146 | on an unchanged table with distinct ids, refreshing with the refresh token from `/login` finds the logged-in row again and signs the same userId, username, roles and permissions, with the same lifetimes, as the login did |
| `ControllerProperties.AdminRefreshRefused` | src/user/user.controller.ts:84-115 | on a table with distinct ids, the refresh token from `/admin/login` is always refused |
| `ControllerProperties.StoredAdminRefreshRefused` | src/user/user.controller.ts:84-115 | on the service's own user table (ids assigned in insertion order), the refresh token from `/admin/login` is always refused |

## Left out

- Captcha code generation (`Math.random().toString().slice(2, 8)`): the code is a parameter of `Captcha`, an arbitrary string, possibly empty.
- Sending the captcha e-mail: this is I/O, and its failures are not modelled.
- Expiry timing in the cache: an entry is present or absent. The TTL it was stored with is recorded but never counts down.
- The workings of the collaborators: md5, JWT signing and verification (signature, expiry, encoding) and configuration loading are uninterpreted. `sign` is a function of the claims and the lifetime, so the issue time it stamps is folded into it. Tokens signed at different times differ in their `iat` and `exp`, so the model states what a later signing signs (its claims and lifetime), not that its token is equal.
- What `verify` answers: one of the two claim shapes this controller signs. A payload without `userId` is not modelled.
- TypeORM behaviour:
  - Relation loading is modelled as user rows that carry their roles and permissions.
  - Relation loading is assumed to return one shared object per permission row, so `indexOf` finds a permission held by two roles. A loader that builds a fresh object for each role would make `indexOf` miss it, and the program would keep both copies. `DedupNoDuplicates`, `AggregatedPermissions`, `LoginView` and `FindUserByIdOutcome` promise no repeats only under this assumption.
  - `findOne` with several matching rows answers the first in table order.
  - Usernames are compared as exact strings (`Matches`). Under a case-insensitive or accent-insensitive column collation, such as MySQL's default, names that differ only in case or accents also match. `RegisterUserExists`, `RegisterTwiceConflicts`, `LoginUserNotFound` and `LoginEndpointRejectsOtherPartition` state their "用户已存在" and "用户不存在" results for exact equality only.
  - Auto-increment ids are modelled as position + 1 in each table (`Database.Valid`).
  - Read queries never throw.
  - `createTime` is a number the database supplies.
- Entity defaults: the entity definitions are not part of this model. A registered user gets `isAdmin = false`, `isFrozen = false`, no phone number, no avatar and no roles. Both seeded users get `isFrozen = false` and no avatar, and lisi also gets `isAdmin = false` and no phone number.
- `InitData`: the three saves are modelled as always succeeding. Constraint violations there are not modelled.
- The logger call in `register`'s catch block.
- The race between the username check and the insert in `register`: concurrency is left to the database.
- The controller's `register` and `initData` routes: they only delegate to the service (the second then answers "done").
- `src/app.module.ts`, `src/user/user.module.ts` and `src/app.controller.ts`: only dependency injection, module wiring and constant routes.
- The `RequireLogin` decorator and `LoginGuard` on the refresh route: their source is not part of this model.
- HTTP status mapping: `BadRequest`, `Unauthorized`, `TypeError` and `SignError` name the exception that is raised. The status code the framework sends for each is not modelled.
