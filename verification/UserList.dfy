/** User lists as the panel sends them (api/v2board/user.go) and the difference between two of
    them (node/user.go). */
module UserList {

  /** UserInfo */
  datatype User = User(id: int, uuid: string, speed: int, device: int)

  predicate ValidUser(u: User) { 0 < u.id && u.uuid != "" && 0 <= u.speed && 0 <= u.device }

  predicate UniqueUuids(users: seq<User>) {
    forall i, j :: 0 <= i < j < |users| ==> users[i].uuid != users[j].uuid
  }

  predicate UniqueIds(users: seq<User>) {
    forall i, j :: 0 <= i < j < |users| ==> users[i].id != users[j].id
  }

  predicate ValidUsers(users: seq<User>) {
    (forall u :: u in users ==> ValidUser(u)) && UniqueIds(users) && UniqueUuids(users)
  }

  function Uuids(users: seq<User>): set<string> { set u | u in users :: u.uuid }

  function Ids(users: seq<User>): set<int> { set u | u in users :: u.id }

  /** A list stays valid exactly when the next user is valid and shares neither key. */
  lemma ExtendValid(users: seq<User>, u: User)
    ensures ValidUsers(users + [u]) <==>
            ValidUsers(users) && ValidUser(u) && u.id !in Ids(users) && u.uuid !in Uuids(users)
    ensures Ids(users + [u]) == Ids(users) + {u.id} && Uuids(users + [u]) == Uuids(users) + {u.uuid}
  {
    var all := users + [u];
    assert forall k :: 0 <= k < |users| ==> all[k] == users[k];
    assert all[|users|] == u;
    assert u in all;
    if ValidUsers(all) {
      assert forall v :: v in users ==> v in all;
    }
  }

  lemma PrefixValid(users: seq<User>, k: nat)
    requires k <= |users| && ValidUsers(users)
    ensures ValidUsers(users[..k])
  {
  }

  /** The validation loop of getUsers: accepts exactly the valid lists. */
  method CheckUsers(users: seq<User>) returns (ok: bool)
    ensures ok <==> ValidUsers(users)
  {
    var ids: set<int>, uuids: set<string> := {}, {};
    for i := 0 to |users|
      invariant ValidUsers(users[..i])
      invariant ids == Ids(users[..i]) && uuids == Uuids(users[..i])
    {
      var u := users[i];
      assert users[..i + 1] == users[..i] + [u];
      ExtendValid(users[..i], u);
      if u.id <= 0 || u.uuid == "" || u.speed < 0 || u.device < 0 || u.id in ids || u.uuid in uuids {
        if ValidUsers(users) {
          PrefixValid(users, i + 1);
        }
        return false;
      }
      ids := ids + {u.id};
      uuids := uuids + {u.uuid};
    }
    assert users[..|users|] == users;
    return true;
  }

  /** The users left when those with the given ids are taken out. */
  function Kept(users: seq<User>, ids: set<int>): seq<User> {
    if users == [] then []
    else
      var rest := Kept(users[..|users| - 1], ids);
      if users[|users| - 1].id in ids then rest else rest + [users[|users| - 1]]
  }

  /** The users taken out. */
  function Dropped(users: seq<User>, ids: set<int>): seq<User> {
    if users == [] then []
    else
      var rest := Dropped(users[..|users| - 1], ids);
      if users[|users| - 1].id in ids then rest + [users[|users| - 1]] else rest
  }

  lemma {:induction false} KeptOrDropped(users: seq<User>, ids: set<int>)
    ensures forall u :: u in Kept(users, ids) <==> u in users && u.id !in ids
    ensures forall u :: u in Dropped(users, ids) <==> u in users && u.id in ids
    decreases |users|
  {
    if users != [] {
      assert users == users[..|users| - 1] + [users[|users| - 1]];
      KeptOrDropped(users[..|users| - 1], ids);
    }
  }

  lemma {:induction false} KeptIsUnique(users: seq<User>, ids: set<int>)
    requires UniqueIds(users) && UniqueUuids(users)
    ensures UniqueIds(Kept(users, ids)) && UniqueUuids(Kept(users, ids))
    decreases |users|
  {
    if users != [] {
      var shorter := users[..|users| - 1];
      KeptIsUnique(shorter, ids);
      KeptOrDropped(shorter, ids);
      var r := Kept(shorter, ids);
      forall i | 0 <= i < |r|
        ensures r[i].uuid != users[|users| - 1].uuid && r[i].id != users[|users| - 1].id
      {
        assert r[i] in shorter;
      }
    }
  }

  /** What deleted, added and modified must be for two lists with unique UUIDs. */
  ghost predicate IsDelta(was: seq<User>, now: seq<User>, deleted: seq<User>, added: seq<User>, modified: seq<User>) {
    && (forall u :: u in deleted <==> u in was && u.uuid !in Uuids(now))
    && (forall u :: u in added <==> u in now && u.uuid !in Uuids(was))
    && (forall u :: u in modified <==>
          u in now && exists o :: o in was && o.uuid == u.uuid && (o.speed != u.speed || o.device != u.device))
    && UniqueUuids(deleted) && UniqueUuids(added) && UniqueUuids(modified)
  }

  lemma SameUuidSameUser(users: seq<User>, u: User, v: User)
    requires UniqueUuids(users) && u in users && v in users && u.uuid == v.uuid
    ensures u == v
  {
    var i :| 0 <= i < |users| && users[i] == u;
    var j :| 0 <= j < |users| && users[j] == v;
    assert i == j;
  }

  lemma SplitUuids(users: seq<User>, ids: set<int>)
    requires UniqueUuids(users)
    ensures Uuids(Kept(users, ids)) == Uuids(users) - Uuids(Dropped(users, ids))
  {
    KeptOrDropped(users, ids);
    forall u, v | u in Dropped(users, ids) && v in users && u.uuid == v.uuid
      ensures u == v
    {
      SameUuidSameUser(users, u, v);
    }
  }

  /** What oldMap holds once the first k users of the new list have been looked at. */
  ghost predicate Remaining(oldMap: map<string, User>, was: seq<User>, now: seq<User>, k: nat)
    requires k <= |now|
  {
    && (forall x :: x in oldMap ==> oldMap[x] in was && oldMap[x].uuid == x && x !in Uuids(now[..k]))
    && (forall u :: u in was && u.uuid !in Uuids(now[..k]) ==> u.uuid in oldMap)
  }

  /** The added and modified users among the first k of the new list. */
  ghost predicate FoundSoFar(was: seq<User>, now: seq<User>, k: nat, added: seq<User>, modified: seq<User>)
    requires k <= |now|
  {
    && (forall u :: u in added <==> u in now[..k] && u.uuid !in Uuids(was))
    && (forall u :: u in modified <==>
          u in now[..k] && exists o :: o in was && o.uuid == u.uuid && (o.speed != u.speed || o.device != u.device))
    && UniqueUuids(added) && UniqueUuids(modified)
  }

  lemma AppendIsUnique(users: seq<User>, u: User)
    requires UniqueUuids(users) && u.uuid !in Uuids(users)
    ensures UniqueUuids(users + [u])
  {
    forall i | 0 <= i < |users|
      ensures users[i].uuid != u.uuid
    {
      assert users[i] in users;
    }
  }

  lemma TakeOne(now: seq<User>, k: nat)
    requires k < |now| && UniqueUuids(now)
    ensures forall u :: u in now[..k + 1] <==> u in now[..k] || u == now[k]
    ensures Uuids(now[..k + 1]) == Uuids(now[..k]) + {now[k].uuid}
    ensures now[k].uuid !in Uuids(now[..k])
  {
    assert now[..k + 1] == now[..k] + [now[k]];
  }

  /** One user of the new list against oldMap. */
  method CompareOne(oldMap: map<string, User>, ghost was: seq<User>, ghost now: seq<User>, ghost k: nat, u: User,
                    added: seq<User>, modified: seq<User>)
      returns (rest: map<string, User>, added': seq<User>, modified': seq<User>)
    requires UniqueUuids(was) && UniqueUuids(now) && k < |now| && u == now[k]
    requires Remaining(oldMap, was, now, k) && FoundSoFar(was, now, k, added, modified)
    ensures Remaining(rest, was, now, k + 1) && FoundSoFar(was, now, k + 1, added', modified')
  {
    TakeOne(now, k);
    rest, added', modified' := oldMap, added, modified;
    if u.uuid !in oldMap {
      AppendIsUnique(added, u);
      added' := added + [u];
      assert u.uuid !in Uuids(was);
    } else {
      var o := oldMap[u.uuid];
      assert o in was;
      forall p | p in was && p.uuid == u.uuid ensures p == o { SameUuidSameUser(was, p, o); }
      if o.speed != u.speed || o.device != u.device {
        AppendIsUnique(modified, u);
        modified' := modified + [u];
      }
      rest := oldMap - {u.uuid};
    }
  }

  /** compareUserList. The order of `deleted` is that of a Go map: any. */
  method CompareUserList(was: seq<User>, now: seq<User>)
      returns (deleted: seq<User>, added: seq<User>, modified: seq<User>)
    requires UniqueUuids(was) && UniqueUuids(now)
    ensures IsDelta(was, now, deleted, added, modified)
  {
    var oldMap: map<string, User> := map[];
    for i := 0 to |was|
      invariant forall x :: x in oldMap ==> oldMap[x] in was && oldMap[x].uuid == x
      invariant forall k :: 0 <= k < i ==> was[k].uuid in oldMap
    {
      oldMap := oldMap[was[i].uuid := was[i]];
    }
    added, modified := [], [];
    for k := 0 to |now|
      invariant Remaining(oldMap, was, now, k) && FoundSoFar(was, now, k, added, modified)
    {
      oldMap, added, modified := CompareOne(oldMap, was, now, k, now[k], added, modified);
    }
    assert now[..|now|] == now;
    deleted := Values(oldMap);
    forall u | u in was && u.uuid !in Uuids(now)
      ensures u in deleted
    {
      SameUuidSameUser(was, u, oldMap[u.uuid]);
    }
  }

  /** The values of a map, in any order. */
  method Values(m: map<string, User>) returns (r: seq<User>)
    requires forall x :: x in m ==> m[x].uuid == x
    ensures forall u :: u in r <==> u.uuid in m && m[u.uuid] == u
    ensures UniqueUuids(r)
  {
    r := [];
    var todo := m.Keys;
    while todo != {}
      invariant todo <= m.Keys && UniqueUuids(r)
      invariant forall u :: u in r <==> u.uuid in m && m[u.uuid] == u && u.uuid !in todo
      decreases |todo|
    {
      var x :| x in todo;
      AppendIsUnique(r, m[x]);
      r := r + [m[x]];
      todo := todo - {x};
    }
  }
}
