/** Applying the difference between two user lists to the core and to the limiter (node/task.go,
    node/user.go, limiter/limiter.go, core/officialhy2/manager.go), against rebuilding both. */
module UserDelta {
  import opened UserList

  /** The part of a limiter entry that depends on the user list. */
  datatype Limit = Limit(uid: int, speed: int, device: int, revoked: bool)

  type Limits = map<string, Limit>

  function LimitFor(u: User): Limit { Limit(u.id, u.speed, u.device, false) }

  // ---- what the loops compute ----

  function AfterRevoke(v: Limits, uuids: set<string>): Limits {
    map x | x in v :: if x in uuids then v[x].(revoked := true) else v[x]
  }

  function AfterModify(v: Limits, users: seq<User>): Limits {
    if users == [] then v
    else
      var w, u := AfterModify(v, users[..|users| - 1]), users[|users| - 1];
      if u.uuid in w then w[u.uuid := w[u.uuid].(speed := u.speed, device := u.device)] else w
  }

  function AfterAdd(v: Limits, users: seq<User>): Limits {
    if users == [] then v
    else AfterAdd(v, users[..|users| - 1])[users[|users| - 1].uuid := LimitFor(users[|users| - 1])]
  }

  function IdsAfterAdd(ids: map<string, int>, users: seq<User>): map<string, int> {
    if users == [] then ids
    else IdsAfterAdd(ids, users[..|users| - 1])[users[|users| - 1].uuid := users[|users| - 1].id]
  }

  /** UpdateUser as a function. */
  function Updated(v: Limits, deleted: seq<User>, modified: seq<User>, added: seq<User>): Limits {
    AfterAdd(AfterModify(v - Uuids(deleted), modified), added)
  }

  lemma {:induction false} ModifyAt(v: Limits, users: seq<User>)
    requires UniqueUuids(users)
    ensures AfterModify(v, users).Keys == v.Keys
    ensures forall x :: x in v && x !in Uuids(users) ==> AfterModify(v, users)[x] == v[x]
    ensures forall u :: u in users && u.uuid in v ==>
              AfterModify(v, users)[u.uuid] == v[u.uuid].(speed := u.speed, device := u.device)
    decreases |users|
  {
    if users != [] {
      TakeOne(users, |users| - 1);
      assert users[..|users|] == users;
      ModifyAt(v, users[..|users| - 1]);
    }
  }

  lemma {:induction false} AddAt(v: Limits, users: seq<User>)
    requires UniqueUuids(users)
    ensures AfterAdd(v, users).Keys == v.Keys + Uuids(users)
    ensures forall x :: x in v && x !in Uuids(users) ==> AfterAdd(v, users)[x] == v[x]
    ensures forall u :: u in users ==> AfterAdd(v, users)[u.uuid] == LimitFor(u)
    decreases |users|
  {
    if users != [] {
      TakeOne(users, |users| - 1);
      assert users[..|users|] == users;
      AddAt(v, users[..|users| - 1]);
      var u := users[|users| - 1];
      assert AfterAdd(v, users) == AfterAdd(v, users[..|users| - 1])[u.uuid := LimitFor(u)];
    }
  }

  lemma {:induction false} IdsAt(ids: map<string, int>, users: seq<User>)
    requires UniqueUuids(users)
    ensures IdsAfterAdd(ids, users).Keys == ids.Keys + Uuids(users)
    ensures forall x :: x in ids && x !in Uuids(users) ==> IdsAfterAdd(ids, users)[x] == ids[x]
    ensures forall u :: u in users ==> IdsAfterAdd(ids, users)[u.uuid] == u.id
    decreases |users|
  {
    if users != [] {
      TakeOne(users, |users| - 1);
      assert users[..|users|] == users;
      IdsAt(ids, users[..|users| - 1]);
    }
  }

  // ---- the delta equals a rebuild ----

  /** The limiter has exactly these users, with their limits, and those that are not authorised, and
      only those, are revoked. */
  predicate Agrees(v: Limits, users: seq<User>, auth: set<string>) {
    && v.Keys == Uuids(users)
    && forall u :: u in users ==>
         v[u.uuid].speed == u.speed && v[u.uuid].device == u.device && (v[u.uuid].revoked <==> u.uuid !in auth)
  }

  predicate UidsAgree(v: Limits, users: seq<User>) {
    forall u :: u in users ==> u.uuid in v && v[u.uuid].uid == u.id
  }

  /** A limiter built from scratch, as AddLimiter builds it. */
  function Rebuilt(users: seq<User>): Limits { AfterAdd(map[], users) }

  lemma RebuiltAgrees(users: seq<User>)
    requires UniqueUuids(users)
    ensures Agrees(Rebuilt(users), users, Uuids(users)) && UidsAgree(Rebuilt(users), users)
  {
    AddAt(map[], users);
  }

  /** Entry by entry, what an update by a delta leaves: a surviving user keeps its entry. */
  lemma UpdatedAt(v: Limits, was: seq<User>, users: seq<User>, deleted: seq<User>, added: seq<User>,
                  modified: seq<User>, u: User)
    requires UniqueUuids(was) && UniqueUuids(users) && IsDelta(was, users, deleted, added, modified)
    requires v.Keys == Uuids(was) && u in users
    ensures u.uuid in Updated(v, deleted, modified, added)
    ensures Updated(v, deleted, modified, added)[u.uuid] ==
            if u.uuid !in Uuids(was) then LimitFor(u)
            else if u in modified then v[u.uuid].(speed := u.speed, device := u.device)
            else v[u.uuid]
  {
    var w := v - Uuids(deleted);
    ModifyAt(w, modified);
    AddAt(AfterModify(w, modified), added);
    if u.uuid in Uuids(was) {
      assert u.uuid !in Uuids(deleted) && u.uuid !in Uuids(added);
      if u.uuid in Uuids(modified) {
        var m :| m in modified && m.uuid == u.uuid;
        SameUuidSameUser(users, m, u);
      }
    }
  }

  lemma UpdatedKeys(v: Limits, was: seq<User>, users: seq<User>, deleted: seq<User>, added: seq<User>,
                    modified: seq<User>)
    requires UniqueUuids(was) && UniqueUuids(users) && IsDelta(was, users, deleted, added, modified)
    requires v.Keys == Uuids(was)
    ensures Updated(v, deleted, modified, added).Keys == Uuids(users)
  {
    var w := v - Uuids(deleted);
    ModifyAt(w, modified);
    AddAt(AfterModify(w, modified), added);
    forall x
      ensures (x in Uuids(was) && x !in Uuids(deleted)) || x in Uuids(added) <==> x in Uuids(users)
    {
      if x in Uuids(was) && x !in Uuids(users) {
        var o :| o in was && o.uuid == x;
        assert o in deleted;
      }
      if x in Uuids(users) && x !in Uuids(was) {
        var u :| u in users && u.uuid == x;
        assert u in added;
      }
    }
  }

  /** Delta equals rebuild: the same users, the same speed and device limits, and a user is revoked only
      if it was not authorised before. From a state without such users, nobody is revoked. */
  lemma DeltaEqualsRebuild(v: Limits, was: seq<User>, users: seq<User>, auth: set<string>,
                           deleted: seq<User>, added: seq<User>, modified: seq<User>)
    requires UniqueUuids(was) && UniqueUuids(users) && IsDelta(was, users, deleted, added, modified)
    requires Agrees(v, was, auth) && auth <= Uuids(was)
    ensures Agrees(Updated(v, deleted, modified, added), users, auth - Uuids(deleted) + Uuids(added))
    ensures auth == Uuids(was) ==> Agrees(Updated(v, deleted, modified, added), users, Uuids(users))
  {
    UpdatedKeys(v, was, users, deleted, added, modified);
    DeltaUuids(was, users, deleted, added, modified);
    forall u | u in users
      ensures var l := Updated(v, deleted, modified, added)[u.uuid];
              l.speed == u.speed && l.device == u.device && (l.revoked <==> u.uuid in Uuids(was) && u.uuid !in auth)
    {
      UpdatedAt(v, was, users, deleted, added, modified, u);
      if u.uuid in Uuids(was) {
        var o :| o in was && o.uuid == u.uuid;
      }
    }
  }

  /** A delta turns the old set of UUIDs into the new one. */
  lemma DeltaUuids(was: seq<User>, users: seq<User>, deleted: seq<User>, added: seq<User>, modified: seq<User>)
    requires IsDelta(was, users, deleted, added, modified)
    ensures Uuids(deleted) == Uuids(was) - Uuids(users) && Uuids(added) == Uuids(users) - Uuids(was)
  {
    forall x | x in Uuids(was) - Uuids(users)
      ensures x in Uuids(deleted)
    {
      var o :| o in was && o.uuid == x;
      assert o in deleted;
    }
    forall x | x in Uuids(users) - Uuids(was)
      ensures x in Uuids(added)
    {
      var u :| u in users && u.uuid == x;
      assert u in added;
    }
  }

  /** No UUID of `who` that both lists have changed its UID. */
  predicate UidsStable(who: set<string>, was: seq<User>, users: seq<User>) {
    forall o, u :: o in was && u in users && o.uuid == u.uuid && o.uuid in who ==> o.id == u.id
  }

  /** The limiter's UIDs equal those of a rebuild exactly when the panel changed no surviving user's
      UID: compareUserList does not look at it. */
  lemma DeltaUidsEqualRebuildIff(v: Limits, was: seq<User>, users: seq<User>, deleted: seq<User>, added: seq<User>,
                                 modified: seq<User>)
    requires UniqueUuids(was) && UniqueUuids(users) && IsDelta(was, users, deleted, added, modified)
    requires v.Keys == Uuids(was) && UidsAgree(v, was)
    ensures UidsAgree(Updated(v, deleted, modified, added), users) <==> UidsStable(Uuids(was), was, users)
  {
    var w := Updated(v, deleted, modified, added);
    forall u | u in users
      ensures u.uuid in w && (w[u.uuid].uid == if u.uuid in Uuids(was) then v[u.uuid].uid else u.id)
    {
      UpdatedAt(v, was, users, deleted, added, modified, u);
    }
    if UidsStable(Uuids(was), was, users) {
      forall u | u in users && u.uuid in Uuids(was)
        ensures w[u.uuid].uid == u.id
      {
        var o :| o in was && o.uuid == u.uuid;
      }
    }
  }

  /** With agreeing UIDs and nobody revoked, a limiter is the rebuilt one. */
  lemma AgreeingIsRebuilt(w: Limits, users: seq<User>)
    requires UniqueUuids(users) && Agrees(w, users, Uuids(users)) && UidsAgree(w, users)
    ensures w == Rebuilt(users)
  {
    RebuiltAgrees(users);
    forall x | x in w
      ensures w[x] == Rebuilt(users)[x]
    {
      var u :| u in users && u.uuid == x;
    }
  }

  /** The core bills these users under their own UIDs. */
  predicate CoreUidsAgree(auth: map<string, int>, users: seq<User>) {
    forall u :: u in users && u.uuid in auth ==> auth[u.uuid] == u.id
  }

  /** The same of the core, whose UIDs decide who is billed. */
  lemma CoreUidsEqualRebuildIff(auth: map<string, int>, was: seq<User>, users: seq<User>,
                                deleted: seq<User>, added: seq<User>, modified: seq<User>)
    requires UniqueUuids(was) && UniqueUuids(users) && IsDelta(was, users, deleted, added, modified)
    requires auth.Keys <= Uuids(was) && CoreUidsAgree(auth, was)
    ensures CoreUidsAgree(IdsAfterAdd(auth - Uuids(deleted), added), users) <==> UidsStable(auth.Keys, was, users)
  {
    var after := IdsAfterAdd(auth - Uuids(deleted), added);
    IdsAt(auth - Uuids(deleted), added);
    DeltaUuids(was, users, deleted, added, modified);
    forall u | u in users && u.uuid in auth
      ensures u.uuid in after && after[u.uuid] == auth[u.uuid]
    {
      assert u.uuid in Uuids(was) && u.uuid in Uuids(users);
    }
    forall u | u in users && u.uuid !in Uuids(was)
      ensures u.uuid in after && after[u.uuid] == u.id
    {
      assert u in added;
    }
    if UidsStable(auth.Keys, was, users) {
      forall u | u in users && u.uuid in auth
        ensures auth[u.uuid] == u.id
      {
        var o :| o in was && o.uuid == u.uuid;
      }
    }
  }

  lemma EmptyOrMember(users: seq<User>)
    ensures users == [] || exists u :: u in users
  {
    if users != [] {
      assert users[0] in users;
    }
  }

  /** A user whose UID the panel changes keeps the old one in the limiter and in the core. */
  lemma ChangedUidIsMissed(deleted: seq<User>, added: seq<User>, modified: seq<User>)
    requires IsDelta([User(1, "a", 0, 0)], [User(2, "a", 0, 0)], deleted, added, modified)
    ensures deleted == [] && added == [] && modified == []
    ensures Updated(Rebuilt([User(1, "a", 0, 0)]), deleted, modified, added)["a"].uid == 1
    ensures Rebuilt([User(2, "a", 0, 0)])["a"].uid == 2
    ensures IdsAfterAdd(map["a" := 1] - Uuids(deleted), added) == map["a" := 1]
  {
    var was, users := [User(1, "a", 0, 0)], [User(2, "a", 0, 0)];
    assert was[0] in was && users[0] in users;
    assert Uuids(was) == {"a"} == Uuids(users);
    EmptyOrMember(deleted);
    EmptyOrMember(added);
    EmptyOrMember(modified);
    var v := Rebuilt(was);
    RebuiltAgrees(was);
    RebuiltAgrees(users);
    assert v - Uuids([]) == v;
  }
}
