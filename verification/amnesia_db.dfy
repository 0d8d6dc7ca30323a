/** The in-browser user and group store of the Amnesia client
    (Amnesia/src/services/db.ts). The two JSON arrays that the service
    keeps in `localStorage` are the fields `users` and `groups`; reading an
    absent entry as `[]` is the initial state. The UUIDs, the ISO clock
    text and the `Math.random()` draws (already scaled to `0..15`) are
    parameters. */
module AmnesiaDb {
  import opened Common

  datatype User = User(id: string, key: string, email: Option<string>, socialId: Option<string>,
                       provider: Option<string>, createdAt: string)

  /** `Partial<User>` as given to `users.create`. */
  datatype UserData = UserData(key: Option<string>, email: Option<string>, socialId: Option<string>,
                               provider: Option<string>, createdAt: Option<string>)

  datatype Group = Group(id: string, name: string, key: string, ownerId: string,
                         members: seq<string>, createdAt: string)

  const HexDigits := "0123456789abcdef"

  predicate IsLowerHex(c: char) {
    '0' <= c <= '9' || 'a' <= c <= 'f'
  }

  /** `Array.from({length: n}, () => draw.toString(16)).join("")`. */
  function HexKey(draws: seq<nat>): (r: string)
    requires forall i :: 0 <= i < |draws| ==> draws[i] < 16
    ensures |r| == |draws|
    ensures forall i :: 0 <= i < |r| ==> IsLowerHex(r[i]) && r[i] == HexDigits[draws[i]]
  {
    seq(|draws|, i requires 0 <= i < |draws| => HexDigits[draws[i]])
  }

  /** `x || fallback` on an optional string: missing and empty both fall
      back. */
  function OrElse(o: Option<string>, fallback: string): (r: string)
    ensures o.Some? && o.value != [] ==> r == o.value
    ensures o.None? || o.value == [] ==> r == fallback
  {
    if o.Some? && o.value != [] then o.value else fallback
  }

  /** The record `users.create` builds. */
  function NewUser(data: UserData, id: string, nowIso: string): (r: User)
    ensures r.id == id && r.email == data.email && r.socialId == data.socialId && r.provider == data.provider
    ensures r.key == OrElse(data.key, "") && r.createdAt == OrElse(data.createdAt, nowIso)
  {
    User(id, OrElse(data.key, ""), data.email, data.socialId, data.provider, OrElse(data.createdAt, nowIso))
  }

  function KeyIs(key: string): User -> bool {
    (u: User) => u.key == key
  }

  function GroupKeyIs(key: string): Group -> bool {
    (g: Group) => g.key == key
  }

  function GroupIdIs(id: string): Group -> bool {
    (g: Group) => g.id == id
  }

  /** The test of `findOrCreate`; a user without a social id or provider
      never passes it. */
  function SameAccount(socialId: string, provider: string): User -> bool {
    (u: User) => u.socialId == Some(socialId) && u.provider == Some(provider)
  }

  /** The group after `addMember`: the user is appended unless already a
      member. */
  function WithMember(g: Group, userId: string): (r: Group)
    ensures userId in r.members
    ensures forall m :: m in r.members <==> m in g.members || m == userId
    ensures r.(members := g.members) == g
    ensures userId in g.members ==> r == g
  {
    if userId in g.members then g else g.(members := g.members + [userId])
  }

  /** Adding the same member again changes nothing. */
  lemma WithMemberIdempotent(g: Group, userId: string)
    ensures WithMember(WithMember(g, userId), userId) == WithMember(g, userId)
  {
  }

  /** A duplicate-free member list stays duplicate-free. */
  lemma WithMemberNoDups(g: Group, userId: string)
    requires NoDups(g.members)
    ensures NoDups(WithMember(g, userId).members)
  {
    var r := WithMember(g, userId);
    if userId !in g.members {
      forall i, j | 0 <= i < j < |r.members| ensures r.members[i] != r.members[j] {
        if j == |g.members| {
          assert r.members[i] == g.members[i];
        }
      }
    }
  }

  class DatabaseService {
    var users: seq<User>
    var groups: seq<Group>

    constructor()
      ensures users == [] && groups == []
    {
      users := [];
      groups := [];
    }

    /** `users.create`: exactly one user is appended and returned. */
    method CreateUser(data: UserData, id: string, nowIso: string) returns (user: User)
      modifies this
      ensures user == NewUser(data, id, nowIso)
      ensures users == old(users) + [user] && groups == old(groups)
    {
      user := NewUser(data, id, nowIso);
      users := users + [user];
    }

    /** `users.findByKey`: the first user with exactly that key, if any. */
    method FindUserByKey(key: string) returns (r: Option<User>)
      ensures r.None? <==> forall j :: 0 <= j < |users| ==> users[j].key != key
      ensures r.Some? ==> exists k :: 0 <= k < |users| && users[k] == r.value && r.value.key == key
                                      && forall j :: 0 <= j < k ==> users[j].key != key
    {
      var k := FindIndex(users, KeyIs(key));
      if k.None? {
        return None;
      }
      r := Some(users[k.value]);
    }

    /** `users.findOrCreate`: an existing account is returned without
        adding anything; otherwise one user with a fresh 16-digit hex key
        is created. */
    method FindOrCreate(socialId: string, provider: string, email: Option<string>,
                        id: string, nowIso: string, draws: seq<nat>) returns (user: User)
      requires |draws| == 16 && forall i :: 0 <= i < 16 ==> draws[i] < 16
      modifies this
      ensures groups == old(groups)
      ensures FindIndex(old(users), SameAccount(socialId, provider)).Some? ==>
                users == old(users) && user == users[FindIndex(users, SameAccount(socialId, provider)).value]
      ensures FindIndex(old(users), SameAccount(socialId, provider)).None? ==>
                users == old(users) + [user]
                && user == NewUser(UserData(Some(HexKey(draws)), email, Some(socialId), Some(provider), None), id, nowIso)
      ensures user.socialId == Some(socialId) && user.provider == Some(provider)
    {
      var k := FindIndex(users, SameAccount(socialId, provider));
      if k.Some? {
        user := users[k.value];
      } else {
        var key := HexKey(draws);
        user := CreateUser(UserData(Some(key), email, Some(socialId), Some(provider), None), id, nowIso);
      }
    }

    /** `groups.create`: the owner is the only member of the new group,
        whose key is 16 lowercase hex digits. */
    method CreateGroup(name: string, ownerId: string, id: string, nowIso: string, draws: seq<nat>)
      returns (group: Group)
      requires |draws| == 16 && forall i :: 0 <= i < 16 ==> draws[i] < 16
      modifies this
      ensures group == Group(id, name, HexKey(draws), ownerId, [ownerId], nowIso)
      ensures |group.key| == 16 && forall i :: 0 <= i < 16 ==> IsLowerHex(group.key[i])
      ensures groups == old(groups) + [group] && users == old(users)
    {
      group := Group(id, name, HexKey(draws), ownerId, [ownerId], nowIso);
      groups := groups + [group];
    }

    /** `groups.findByKey`. */
    method FindGroupByKey(key: string) returns (r: Option<Group>)
      ensures r.None? <==> forall j :: 0 <= j < |groups| ==> groups[j].key != key
      ensures r.Some? ==> exists k :: 0 <= k < |groups| && groups[k] == r.value && r.value.key == key
                                      && forall j :: 0 <= j < k ==> groups[j].key != key
    {
      var k := FindIndex(groups, GroupKeyIs(key));
      if k.None? {
        return None;
      }
      r := Some(groups[k.value]);
    }

    /** `groups.addMember`: `None` for an unknown group, with nothing
        changed; otherwise the first group with that id gets the user
        unless already a member, and is returned. */
    method AddMember(groupId: string, userId: string) returns (r: Option<Group>)
      modifies this
      ensures users == old(users)
      ensures FindIndex(old(groups), GroupIdIs(groupId)).None? ==> r.None? && groups == old(groups)
      ensures FindIndex(old(groups), GroupIdIs(groupId)).Some? ==>
                var k := FindIndex(old(groups), GroupIdIs(groupId)).value;
                groups == old(groups)[k := WithMember(old(groups)[k], userId)] && r == Some(groups[k])
    {
      var k := FindIndex(groups, GroupIdIs(groupId));
      if k.None? {
        return None;
      }
      var g := groups[k.value];
      if userId !in g.members {
        groups := groups[k.value := g.(members := g.members + [userId])];
      }
      r := Some(groups[k.value]);
    }
  }

  /** Adding the same member twice leaves the groups as adding once. */
  lemma AddMemberTwice(groups: seq<Group>, k: nat, userId: string)
    requires k < |groups|
    ensures var once := groups[k := WithMember(groups[k], userId)];
            once[k := WithMember(once[k], userId)] == once
  {
    WithMemberIdempotent(groups[k], userId);
  }
}
