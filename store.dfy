/** The two stateful collaborators of the user service, reduced to what the
    service relies on: a key-value cache holding captcha codes with a
    time-to-live, and the three tables (permission, role, user) with the
    first-match query that `findOne` / `findOneBy` perform. */
module Store {
  import opened Entities

  /** A cached value and the time-to-live, in seconds, it was stored with.
      Expiry itself is not modelled: an entry is present or it is not. */
  datatype CacheEntry = CacheEntry(value: string, ttlSeconds: nat)

  /** What `get` on the cache answers for `key`. */
  function Lookup(entries: map<string, CacheEntry>, key: string): (r: Option<string>)
    ensures r.Some? <==> key in entries
    ensures r.Some? ==> r.value == entries[key].value
  {
    if key in entries then Some(entries[key].value) else None
  }

  class RedisStore {
    var entries: map<string, CacheEntry>

    constructor ()
      ensures entries == map[]
    {
      entries := map[];
    }

    function Get(key: string): (r: Option<string>)
      reads this
      ensures r == Lookup(entries, key)
    {
      Lookup(entries, key)
    }

    /** `set(key, value, ttl)`: replaces whatever was stored under `key`. */
    method Set(key: string, value: string, ttlSeconds: nat)
      modifies this
      ensures entries == old(entries)[key := CacheEntry(value, ttlSeconds)]
    {
      entries := entries[key := CacheEntry(value, ttlSeconds)];
    }
  }

  /** The `where` objects of the queries the service issues. */
  datatype Where =
    | ByUsername(username: string)                       // findOneBy({ username })
    | ByUsernameIn(username: string, isAdmin: bool)      // where: { username, isAdmin }
    | ByIdIn(id: nat, isAdmin: bool)                     // where: { id, isAdmin }

  predicate Matches(u: User, w: Where) {
    match w
    case ByUsername(name) => u.username == name
    case ByUsernameIn(name, admin) => u.username == name && u.isAdmin == admin
    case ByIdIn(id, admin) => u.id == id && u.isAdmin == admin
  }

  /** Position of the first row matching `w`, or -1. */
  function FirstMatch(rows: seq<User>, w: Where): (k: int)
    ensures -1 <= k < |rows|
    ensures k == -1 <==> forall i :: 0 <= i < |rows| ==> !Matches(rows[i], w)
    ensures 0 <= k ==> Matches(rows[k], w) && forall i :: 0 <= i < k ==> !Matches(rows[i], w)
  {
    if rows == [] then -1
    else if Matches(rows[0], w) then 0
    else
      var k := FirstMatch(rows[1..], w);
      assert forall i :: 1 <= i < |rows| ==> rows[1..][i - 1] == rows[i];
      if k == -1 then -1 else k + 1
  }

  /** `findOne` / `findOneBy`: the first row, in table order, matching `w`. */
  function FindOne(rows: seq<User>, w: Where): (r: Option<User>)
    ensures r.None? <==> forall u :: u in rows ==> !Matches(u, w)
    ensures r.Some? ==> r.value in rows && Matches(r.value, w)
  {
    var k := FirstMatch(rows, w);
    if k == -1 then None else Some(rows[k])
  }

  /** Rows numbered 1, 2, 3, ... in insertion order: auto-increment ids in a
      table that never loses a row. */
  predicate Numbered<T>(rows: seq<T>, idOf: T -> nat) {
    forall i :: 0 <= i < |rows| ==> idOf(rows[i]) == i + 1
  }

  const PermissionId := (p: Permission) => p.id
  const RoleId := (r: Role) => r.id
  const UserId := (u: User) => u.id

  /** Ids are distinct, so a query by id has at most one answer. */
  predicate DistinctUserIds(rows: seq<User>) {
    forall i, j :: 0 <= i < |rows| && 0 <= j < |rows| && rows[i].id == rows[j].id ==> i == j
  }

  lemma NumberedUsersAreDistinct(rows: seq<User>)
    requires Numbered(rows, UserId)
    ensures DistinctUserIds(rows)
  {
  }

  /** Rows as `save` stores them: each one given the next free id, where
      `withId(x, n)` is row `x` carrying id `n`. */
  function Number<T>(xs: seq<T>, before: nat, withId: (T, nat) -> T): (r: seq<T>)
    ensures |r| == |xs|
    ensures forall i :: 0 <= i < |xs| ==> r[i] == withId(xs[i], before + i + 1)
  {
    seq(|xs|, i requires 0 <= i < |xs| => withId(xs[i], before + i + 1))
  }

  const PermissionWithId := (p: Permission, id: nat) => p.(id := id)
  const RoleWithId := (r: Role, id: nat) => r.(id := id)
  const UserWithId := (u: User, id: nat) => u.(id := id)

  /** The permission, role and user tables. A user row carries its roles and
      their permissions as the eager `relations` load returns them. */
  class Database {
    var permissions: seq<Permission>
    var roles: seq<Role>
    var users: seq<User>

    ghost predicate Valid()
      reads this
    {
      Numbered(permissions, PermissionId) && Numbered(roles, RoleId) && Numbered(users, UserId)
    }

    /** Ids assigned in insertion order never repeat. */
    lemma UsersDistinct()
      requires Valid()
      ensures DistinctUserIds(users)
    {
      NumberedUsersAreDistinct(users);
    }

    constructor ()
      ensures Valid()
      ensures permissions == [] && roles == [] && users == []
    {
      permissions, roles, users := [], [], [];
    }

    /** `permissionRepository.save(ps)`; returns the rows with their ids set. */
    method SavePermissions(ps: seq<Permission>) returns (saved: seq<Permission>)
      requires Valid()
      modifies this
      ensures Valid()
      ensures saved == Number(ps, |old(permissions)|, PermissionWithId)
      ensures permissions == old(permissions) + saved
      ensures roles == old(roles) && users == old(users)
    {
      saved := Number(ps, |permissions|, PermissionWithId);
      permissions := permissions + saved;
    }

    /** `roleRepository.save(rs)`. */
    method SaveRoles(rs: seq<Role>) returns (saved: seq<Role>)
      requires Valid()
      modifies this
      ensures Valid()
      ensures saved == Number(rs, |old(roles)|, RoleWithId)
      ensures roles == old(roles) + saved
      ensures permissions == old(permissions) && users == old(users)
    {
      saved := Number(rs, |roles|, RoleWithId);
      roles := roles + saved;
    }

    /** `userRepository.save(us)`. */
    method SaveUsers(us: seq<User>) returns (saved: seq<User>)
      requires Valid()
      modifies this
      ensures Valid()
      ensures saved == Number(us, |old(users)|, UserWithId)
      ensures users == old(users) + saved
      ensures permissions == old(permissions) && roles == old(roles)
    {
      saved := Number(us, |users|, UserWithId);
      users := users + saved;
    }

    /** `userRepository.save(u)` for one row, which the database may refuse
        (a constraint violation, a lost connection): `accepted` is its
        answer. A refused insert leaves the table as it was. */
    method SaveUser(u: User, accepted: bool) returns (saved: bool)
      requires Valid()
      modifies this
      ensures Valid()
      ensures saved == accepted
      ensures users == if accepted then old(users) + [u.(id := |old(users)| + 1)] else old(users)
      ensures permissions == old(permissions) && roles == old(roles)
    {
      saved := accepted;
      if accepted {
        users := users + [u.(id := |users| + 1)];
      }
    }
  }
}
