/** The role-to-permission aggregation that login and findUserById share:
    role names projected in order, and the permissions of all roles
    collected into one list without repeats, in order of first occurrence. */
module Permissions {
  import opened Entities

  /** `Array.prototype.indexOf` with `===`: the first position of `x` in `s`,
      or -1 when `x` does not occur. */
  function IndexOf<T(==)>(s: seq<T>, x: T): (k: int)
    ensures -1 <= k < |s|
    ensures k == -1 <==> x !in s
    ensures 0 <= k ==> s[k] == x && x !in s[..k]
  {
    if s == [] then -1
    else if s[0] == x then 0
    else
      var k := IndexOf(s[1..], x);
      if k == -1 then -1
      else
        assert s[..k + 1] == [s[0]] + s[1..][..k];
        k + 1
  }

  predicate NoDuplicates<T(==)>(s: seq<T>) {
    forall i, j :: 0 <= i < j < |s| ==> s[i] != s[j]
  }

  /** All permissions of all roles, role by role, each role's in stored order. */
  function Flatten(roles: seq<Role>): seq<Permission> {
    if roles == [] then []
    else Flatten(roles[..|roles| - 1]) + roles[|roles| - 1].permissions
  }

  /** `s` with every element after its first occurrence dropped: what the
      accumulator holds after the elements of `s` were offered in order. */
  function Dedup<T(==)>(s: seq<T>): seq<T> {
    if s == [] then []
    else
      var d := Dedup(s[..|s| - 1]);
      if s[|s| - 1] in d then d else d + [s[|s| - 1]]
  }

  /** `roles.map((item) => item.name)`. */
  function RoleNames(roles: seq<Role>): (names: seq<string>)
    ensures |names| == |roles|
    ensures forall i :: 0 <= i < |roles| ==> names[i] == roles[i].name
  {
    if roles == [] then [] else [roles[0].name] + RoleNames(roles[1..])
  }

  /** The `reduce` over the roles with a `forEach` over each role's
      permissions, pushing a permission when `indexOf` does not find it. */
  method AggregatePermissions(roles: seq<Role>) returns (arr: seq<Permission>)
    ensures arr == Dedup(Flatten(roles))
  {
    arr := [];
    var i := 0;
    while i < |roles|
      invariant 0 <= i <= |roles|
      invariant arr == Dedup(Flatten(roles[..i]))
    {
      var perms := roles[i].permissions;
      var j := 0;
      assert Flatten(roles[..i]) + perms[..j] == Flatten(roles[..i]);
      while j < |perms|
        invariant 0 <= j <= |perms|
        invariant arr == Dedup(Flatten(roles[..i]) + perms[..j])
      {
        var offered := Flatten(roles[..i]) + perms[..j + 1];
        assert offered[..|offered| - 1] == Flatten(roles[..i]) + perms[..j];
        if IndexOf(arr, perms[j]) == -1 {
          arr := arr + [perms[j]];
        }
        j := j + 1;
      }
      assert roles[..i + 1][..i] == roles[..i];
      assert perms[..j] == perms;
      i := i + 1;
    }
    assert roles[..i] == roles;
  }

  // ---------------------------------------------------------------------
  // What the aggregation guarantees

  lemma {:induction false} FlattenMembers(roles: seq<Role>)
    ensures forall p :: p in Flatten(roles) <==>
      exists i :: 0 <= i < |roles| && p in roles[i].permissions
  {
    if roles != [] {
      var init := roles[..|roles| - 1];
      FlattenMembers(init);
      forall p | p in Flatten(roles)
        ensures exists i :: 0 <= i < |roles| && p in roles[i].permissions
      {
        if p in Flatten(init) {
          var i :| 0 <= i < |init| && p in init[i].permissions;
          assert roles[i] == init[i];
        } else {
          assert p in roles[|roles| - 1].permissions;
        }
      }
      forall p, i | 0 <= i < |roles| && p in roles[i].permissions
        ensures p in Flatten(roles)
      {
        if i < |roles| - 1 {
          assert init[i] == roles[i];
        }
      }
    }
  }

  /** Nothing lost, nothing invented. */
  lemma {:induction false} DedupMembers<T>(s: seq<T>)
    ensures forall x :: x in Dedup(s) <==> x in s
  {
    if s != [] {
      DedupMembers(s[..|s| - 1]);
      assert s == s[..|s| - 1] + [s[|s| - 1]];
    }
  }

  /** No permission appears twice. */
  lemma {:induction false} DedupNoDuplicates<T>(s: seq<T>)
    ensures NoDuplicates(Dedup(s))
  {
    if s != [] {
      DedupNoDuplicates(s[..|s| - 1]);
    }
  }

  /** The first occurrence of `x` is the only position that satisfies the
      contract of IndexOf. */
  lemma FirstOccurrence<T>(s: seq<T>, x: T, k: nat)
    requires k < |s| && s[k] == x && x !in s[..k]
    ensures IndexOf(s, x) == k
  {
    var m := IndexOf(s, x);
    assert x in s[..k + 1];
  }

  /** Appending to a sequence keeps the first position of what was already
      there, and a new element is first found at the end. */
  lemma IndexOfSnoc<T>(s: seq<T>, x: T, y: T)
    ensures y in s ==> IndexOf(s + [x], y) == IndexOf(s, y)
    ensures y !in s && y == x ==> IndexOf(s + [x], y) == |s|
  {
    var t := s + [x];
    if y in s {
      var k := IndexOf(s, y);
      assert t[..k] == s[..k];
      FirstOccurrence(t, y, k);
    } else if y == x {
      assert t[..|s|] == s;
      FirstOccurrence(t, y, |s|);
    }
  }

  /** The kept elements come in the order of their first occurrence. */
  lemma {:induction false} DedupFirstSeenOrder<T>(s: seq<T>)
    ensures forall i, j :: 0 <= i < j < |Dedup(s)| ==>
      IndexOf(s, Dedup(s)[i]) < IndexOf(s, Dedup(s)[j])
  {
    if s != [] {
      var init, last := s[..|s| - 1], s[|s| - 1];
      assert s == init + [last];
      var d := Dedup(init);
      DedupFirstSeenOrder(init);
      DedupMembers(init);
      forall y | y in d ensures IndexOf(s, y) == IndexOf(init, y) {
        IndexOfSnoc(init, last, y);
      }
      if last !in d {
        IndexOfSnoc(init, last, last);
        assert Dedup(s) == d + [last];
        forall i, j | 0 <= i < j < |Dedup(s)|
          ensures IndexOf(s, Dedup(s)[i]) < IndexOf(s, Dedup(s)[j])
        {
          assert Dedup(s)[i] == d[i];
          if j < |d| {
            assert Dedup(s)[j] == d[j];
          } else {
            assert IndexOf(s, Dedup(s)[j]) == |init|;
          }
        }
      }
    }
  }

  /** `a` lists its elements in strictly increasing order of their first
      occurrence in `s`. */
  ghost predicate OrderedByFirstOccurrence<T>(s: seq<T>, a: seq<T>) {
    forall i, j :: 0 <= i < j < |a| ==> IndexOf(s, a[i]) < IndexOf(s, a[j])
  }

  lemma HeadIsEarliest<T>(s: seq<T>, a: seq<T>, x: T)
    requires OrderedByFirstOccurrence(s, a) && a != [] && x in a && x != a[0]
    ensures IndexOf(s, a[0]) < IndexOf(s, x)
  {
    var i :| 0 <= i < |a| && a[i] == x;
  }

  lemma TailOrdered<T>(s: seq<T>, a: seq<T>)
    requires OrderedByFirstOccurrence(s, a) && a != []
    ensures OrderedByFirstOccurrence(s, a[1..])
    ensures a[0] !in a[1..]
  {
    forall i | 0 <= i < |a| - 1 ensures a[1..][i] != a[0] {
      assert a[1..][i] == a[i + 1];
    }
  }

  lemma EmptyHasNoMembers<T>(a: seq<T>)
    ensures a == [] <==> forall x :: x !in a
  {
    if a != [] {
      assert a[0] in a;
    }
  }

  /** Two sequences drawn from `s`, with the same elements and both in
      strictly increasing order of first occurrence in `s`, are equal. */
  lemma {:induction false} OrderedByFirstOccurrenceUnique<T>(s: seq<T>, a: seq<T>, b: seq<T>)
    requires forall x :: x in a <==> x in b
    requires OrderedByFirstOccurrence(s, a) && OrderedByFirstOccurrence(s, b)
    ensures a == b
    decreases |a|
  {
    EmptyHasNoMembers(a);
    EmptyHasNoMembers(b);
    if a != [] {
      assert a[0] in b;
      assert b != [];
      if a[0] != b[0] {
        HeadIsEarliest(s, b, a[0]);
        assert b[0] in a;
        HeadIsEarliest(s, a, b[0]);
        assert false;
      }
      TailOrdered(s, a);
      TailOrdered(s, b);
      assert a == [a[0]] + a[1..] && b == [b[0]] + b[1..];
      forall x ensures x in a[1..] <==> x in b[1..] {
        assert x in a <==> x in b;
      }
      OrderedByFirstOccurrenceUnique(s, a[1..], b[1..]);
    }
  }

  /** Dedup is the only list with the same elements as `s`, ordered by first
      occurrence: the three properties above determine it completely. */
  lemma DedupUnique<T>(s: seq<T>, r: seq<T>)
    requires forall x :: x in r <==> x in s
    requires forall i, j :: 0 <= i < j < |r| ==> IndexOf(s, r[i]) < IndexOf(s, r[j])
    ensures r == Dedup(s)
  {
    DedupMembers(s);
    DedupFirstSeenOrder(s);
    OrderedByFirstOccurrenceUnique(s, r, Dedup(s));
  }

  /** The aggregated permissions of a list of roles: no repeats, exactly the
      permissions of some role, in order of first occurrence when the roles
      and their permissions are walked in order. */
  lemma AggregatedPermissions(roles: seq<Role>)
    ensures NoDuplicates(Dedup(Flatten(roles)))
    ensures forall p :: p in Dedup(Flatten(roles)) <==>
      exists i :: 0 <= i < |roles| && p in roles[i].permissions
    ensures forall i, j :: 0 <= i < j < |Dedup(Flatten(roles))| ==>
      IndexOf(Flatten(roles), Dedup(Flatten(roles))[i]) < IndexOf(Flatten(roles), Dedup(Flatten(roles))[j])
  {
    DedupNoDuplicates(Flatten(roles));
    DedupMembers(Flatten(roles));
    FlattenMembers(roles);
    DedupFirstSeenOrder(Flatten(roles));
  }
}
