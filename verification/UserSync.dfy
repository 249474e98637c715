/** The objects that hold users at run time, changed in place: the limiter's entries
    (limiter/limiter.go), the authenticator (core/officialhy2/manager.go) and the controller's list
    (node/task.go, node/user.go). */
module UserSync {
  import opened UserList
  import opened UserDelta

  class UserLimitInfo {
    var uid: int
    var speed: int
    var device: int
    var revoked: bool

    constructor (u: User)
      ensures View() == LimitFor(u)
    {
      uid, speed, device, revoked := u.id, u.speed, u.device, false;
    }

    function View(): Limit
      reads this
    {
      Limit(uid, speed, device, revoked)
    }
  }

  class Limiter {
    var infos: map<string, UserLimitInfo>
    var uidOf: map<string, int>

    constructor ()
      ensures Valid() && View() == map[] && uidOf == map[] && infos == map[]
    {
      infos, uidOf := map[], map[];
    }

    /** No two users share an entry. */
    ghost predicate Valid()
      reads this
    {
      forall x, y :: x in infos && y in infos && infos[x] == infos[y] ==> x == y
    }

    ghost function View(): Limits
      reads this, infos.Values
    {
      map x | x in infos :: infos[x].View()
    }

    /** RevokeUser: also seen by whoever holds the entry. */
    method RevokeUser(uuid: string)
      requires Valid()
      modifies if uuid in infos then {infos[uuid]} else {}
      ensures View() == AfterRevoke(old(View()), {uuid})
      ensures uuid in infos ==> infos[uuid].revoked
    {
      if uuid in infos {
        infos[uuid].revoked := true;
      }
    }

    method DeleteOne(uuid: string)
      requires Valid()
      modifies this, if uuid in infos then {infos[uuid]} else {}
      ensures Valid() && infos == old(infos) - {uuid} && uidOf == old(uidOf) - {uuid}
      ensures forall x :: x in infos ==> infos[x].View() == old(infos[x].View())
      ensures uuid in old(infos) ==> old(infos)[uuid].revoked
    {
      RevokeUser(uuid);
      infos := infos - {uuid};
      uidOf := uidOf - {uuid};
    }

    method ModifyOne(u: User)
      requires Valid()
      modifies infos.Values
      ensures View() == AfterModify(old(View()), [u])
      ensures forall e :: e in infos.Values ==> e.revoked == old(e.revoked) && e.uid == old(e.uid)
    {
      if u.uuid in infos {
        infos[u.uuid].speed := u.speed;
        infos[u.uuid].device := u.device;
      }
      assert [u][..0] == [];
    }

    method AddOne(u: User)
      requires Valid()
      modifies this
      ensures Valid() && uidOf == old(uidOf)[u.uuid := u.id]
      ensures View() == old(View())[u.uuid := LimitFor(u)]
      ensures infos.Keys == old(infos.Keys) + {u.uuid} && fresh(infos[u.uuid])
      ensures forall x :: x in old(infos) && x != u.uuid ==> infos[x] == old(infos[x])
    {
      var info := new UserLimitInfo(u);
      infos := infos[u.uuid := info];
      uidOf := uidOf[u.uuid := u.id];
    }

    /** UpdateUser. Entries that leave the limiter are revoked first, so whoever has cached one sees
        it; entries of surviving users stay the same objects. */
    method UpdateUser(added: seq<User>, deleted: seq<User>, modified: seq<User>)
      requires Valid()
      modifies this, infos.Values
      ensures Valid() && View() == Updated(old(View()), deleted, modified, added)
      ensures uidOf == IdsAfterAdd(old(uidOf) - Uuids(deleted), added)
      ensures forall x :: x in old(infos) && x !in infos ==> old(infos)[x].revoked
      ensures forall x :: x in old(infos) && x !in Uuids(deleted) && x !in Uuids(added) ==>
                x in infos && infos[x] == old(infos)[x]
      ensures fresh(infos.Values - old(infos.Values))
    {
      DeleteAll(deleted);
      ModifyAll(modified);
      AddAll(added);
    }

    method DeleteAll(deleted: seq<User>)
      requires Valid()
      modifies this, infos.Values
      ensures Valid() && infos == old(infos) - Uuids(deleted) && uidOf == old(uidOf) - Uuids(deleted)
      ensures View() == old(View()) - Uuids(deleted)
      ensures forall x :: x in old(infos) && x !in infos ==> old(infos)[x].revoked
    {
      for i := 0 to |deleted|
        invariant Valid() && infos == old(infos) - Uuids(deleted[..i]) && uidOf == old(uidOf) - Uuids(deleted[..i])
        invariant forall x :: x in infos ==> infos[x].View() == old(infos[x].View())
        invariant forall x :: x in old(infos) && x !in infos ==> old(infos)[x].revoked
      {
        NextUuid(deleted, i);
        DeleteOne(deleted[i].uuid);
      }
      assert deleted[..|deleted|] == deleted;
    }

    method ModifyAll(modified: seq<User>)
      requires Valid()
      modifies infos.Values
      ensures View() == AfterModify(old(View()), modified)
      ensures forall e :: e in infos.Values ==> e.revoked == old(e.revoked) && e.uid == old(e.uid)
    {
      for i := 0 to |modified|
        invariant View() == AfterModify(old(View()), modified[..i])
        invariant forall e :: e in infos.Values ==> e.revoked == old(e.revoked) && e.uid == old(e.uid)
      {
        ghost var before := View();
        ModifyOne(modified[i]);
        ModifyNext(old(View()), before, modified, i);
      }
      assert modified[..|modified|] == modified;
    }

    method AddAll(added: seq<User>)
      requires Valid()
      modifies this
      ensures Valid() && View() == AfterAdd(old(View()), added) && uidOf == IdsAfterAdd(old(uidOf), added)
      ensures forall x :: x in old(infos) && x !in Uuids(added) ==> x in infos && infos[x] == old(infos)[x]
      ensures fresh(infos.Values - old(infos.Values)) && old(infos).Keys <= infos.Keys
    {
      for i := 0 to |added|
        invariant Valid() && View() == AfterAdd(old(View()), added[..i]) && uidOf == IdsAfterAdd(old(uidOf), added[..i])
        invariant forall x :: x in old(infos) && x !in Uuids(added) ==> x in infos && infos[x] == old(infos)[x]
        invariant fresh(infos.Values - old(infos.Values)) && old(infos).Keys <= infos.Keys
      {
        assert added[i] in added;
        assert added[..i + 1][..i] == added[..i];
        AddOne(added[i]);
      }
      assert added[..|added|] == added;
    }
  }

  lemma NextUuid(users: seq<User>, i: nat)
    requires i < |users|
    ensures Uuids(users[..i + 1]) == Uuids(users[..i]) + {users[i].uuid}
  {
    assert users[..i + 1] == users[..i] + [users[i]];
  }

  lemma ModifyNext(v: Limits, w: Limits, users: seq<User>, i: nat)
    requires i < |users| && w == AfterModify(v, users[..i])
    ensures AfterModify(w, [users[i]]) == AfterModify(v, users[..i + 1])
  {
    assert users[..i + 1][..i] == users[..i];
    assert [users[i]][..0] == [];
  }

  /** AddLimiter */
  method AddLimiter(users: seq<User>) returns (l: Limiter)
    ensures fresh(l) && fresh(l.infos.Values) && l.Valid()
    ensures l.View() == Rebuilt(users) && l.uidOf == IdsAfterAdd(map[], users)
  {
    l := new Limiter();
    l.AddAll(users);
  }

  /** The core, as far as it authorises users. */
  class Server {
    var auth: map<string, int>

    constructor ()
      ensures auth == map[]
    {
      auth := map[];
    }

    method DelUser(uuid: string, limiter: Limiter)
      requires limiter.Valid()
      modifies this, limiter.infos.Values
      ensures limiter.Valid() && auth == old(auth) - {uuid}
      ensures limiter.View() == AfterRevoke(old(limiter.View()), {uuid})
    {
      auth := auth - {uuid};
      limiter.RevokeUser(uuid);
    }

    /** DelUsers on a node that exists, up to pruning. */
    method DelUsers(users: seq<User>, limiter: Limiter)
      requires limiter.Valid()
      modifies this, limiter.infos.Values
      ensures auth == old(auth) - Uuids(users)
      ensures limiter.View() == AfterRevoke(old(limiter.View()), Uuids(users))
    {
      for i := 0 to |users|
        invariant limiter.Valid() && auth == old(auth) - Uuids(users[..i])
        invariant limiter.View() == AfterRevoke(old(limiter.View()), Uuids(users[..i]))
      {
        NextUuid(users, i);
        DelUser(users[i].uuid, limiter);
        RevokeTwice(old(limiter.View()), Uuids(users[..i]), {users[i].uuid});
      }
      assert users[..|users|] == users;
    }

    /** AddUsers on a node that exists. */
    method AddUsers(users: seq<User>)
      modifies this
      ensures auth == IdsAfterAdd(old(auth), users)
    {
      for i := 0 to |users|
        invariant auth == IdsAfterAdd(old(auth), users[..i])
      {
        assert users[..i + 1][..i] == users[..i];
        auth := auth[users[i].uuid := users[i].id];
      }
      assert users[..|users|] == users;
    }
  }

  class Controller {
    var userList: seq<User>
    var generation: nat
    var etag: string
    const server: Server
    const limiter: Limiter

    /** Start: everything is built from the first list. */
    constructor (users: seq<User>, tag: string)
      requires ValidUsers(users)
      ensures Consistent() && server.auth.Keys == Uuids(users) && userList == users
      ensures fresh(server) && fresh(limiter) && fresh(limiter.infos.Values)
      ensures UidsAgree(limiter.View(), users) && CoreUidsAgree(server.auth, users)
    {
      var l := AddLimiter(users);
      var s := new Server();
      s.AddUsers(users);
      RebuiltMatches(users);
      userList, generation, etag, server, limiter := users, 0, tag, s, l;
      new;
      assert limiter.View() == Rebuilt(users);
    }

    /** The limiter holds the users of the applied list, with their limits; the core authorises those
        of them that are not revoked: all of them, unless it has refused a call. */
    ghost predicate Consistent()
      reads this, server, limiter, limiter.infos.Values
    {
      && ValidUsers(userList) && limiter.Valid()
      && Matches(userList, server.auth.Keys, limiter.uidOf.Keys, limiter.View())
    }

    /** The calls into the core and the limiter, in the order of syncUsers. `delOk` and `addOk` say
        whether the core accepts a call. */
    method ApplyDelta(deleted: seq<User>, added: seq<User>, modified: seq<User>, delOk: bool, addOk: bool)
      returns (ok: bool)
      requires limiter.Valid()
      modifies server, limiter, limiter.infos.Values
      ensures ok ==>
                && limiter.Valid() && limiter.View() == Updated(old(limiter.View()), deleted, modified, added)
                && server.auth == IdsAfterAdd(old(server.auth) - Uuids(deleted), added)
                && limiter.uidOf == IdsAfterAdd(old(limiter.uidOf) - Uuids(deleted), added)
      ensures ok <==> (deleted != [] ==> delOk) && (added != [] ==> addOk)
      ensures fresh(limiter.infos.Values - old(limiter.infos.Values))
      ensures ok ==> forall x :: x in old(limiter.infos) && x !in limiter.infos ==> old(limiter.infos)[x].revoked
      ensures !ok ==>
                && limiter.Valid() && limiter.uidOf == old(limiter.uidOf)
                && server.auth == old(server.auth) - GoneBefore(deleted, delOk)
                && limiter.View() == AfterRevoke(old(limiter.View()), GoneBefore(deleted, delOk))
    {
      ghost var v := limiter.View();
      if |deleted| > 0 {
        if !delOk {
          assert AfterRevoke(v, {}) == v && server.auth - {} == server.auth;
          return false;
        }
        server.DelUsers(deleted, limiter);
        RevokeThenDelete(v, Uuids(deleted));
      } else {
        assert server.auth - Uuids(deleted) == server.auth && limiter.uidOf - Uuids(deleted) == limiter.uidOf;
        assert AfterRevoke(v, Uuids(deleted)) == v;
      }
      if |added| > 0 {
        if !addOk {
          return false;
        }
        server.AddUsers(added);
      }
      ghost var w := limiter.View();
      assert w - Uuids(deleted) == v - Uuids(deleted);
      if |added| > 0 || |deleted| > 0 || |modified| > 0 {
        limiter.UpdateUser(added, deleted, modified);
      }
      return true;
    }

    /** The part of syncUsers behind the fence. The call is refused exactly if the core refuses a
        deletion or an addition that the new list needs. Otherwise the delta has left what a rebuild
        from the new list would, except for users that an earlier refusal left unauthorised and that
        both lists have: they are neither deleted nor added. */
    method ApplySnapshot(users: seq<User>, tag: string, delOk: bool, addOk: bool) returns (ok: bool)
      requires Consistent() && ValidUsers(users)
      modifies this, server, limiter, limiter.infos.Values
      ensures Consistent() && generation == old(generation)
      ensures fresh(limiter.infos.Values - old(limiter.infos.Values))
      ensures ok <==> (Uuids(old(userList)) <= Uuids(users) || delOk) && (Uuids(users) <= Uuids(old(userList)) || addOk)
      ensures ok ==> userList == users && etag == tag
      ensures ok ==>
                Accepted(old(userList), users, old(server.auth), server.auth, limiter.uidOf, old(limiter.View()),
                         limiter.View())
      ensures ok ==> forall x :: x in old(limiter.infos) && x !in limiter.infos ==> old(limiter.infos)[x].revoked
      ensures !ok ==> userList == old(userList) && etag == old(etag)
      ensures !ok ==>
                server.auth.Keys == old(server.auth.Keys) - if delOk then Uuids(userList) - Uuids(users) else {}
    {
      ok := CompareAndApply(users, delOk, addOk);
      if ok {
        Install(users, tag);
      }
    }

    method CompareAndApply(users: seq<User>, delOk: bool, addOk: bool) returns (ok: bool)
      requires limiter.Valid() && ValidUsers(userList) && ValidUsers(users)
      requires Matches(userList, server.auth.Keys, limiter.uidOf.Keys, limiter.View())
      modifies server, limiter, limiter.infos.Values
      ensures ok <==> (Uuids(userList) <= Uuids(users) || delOk) && (Uuids(users) <= Uuids(userList) || addOk)
      ensures limiter.Valid() && fresh(limiter.infos.Values - old(limiter.infos.Values))
      ensures if ok
              then Accepted(userList, users, old(server.auth), server.auth, limiter.uidOf, old(limiter.View()),
                            limiter.View())
              else Refused(userList, users, delOk, old(server.auth), server.auth, limiter.uidOf, limiter.View())
      ensures ok ==> forall x :: x in old(limiter.infos) && x !in limiter.infos ==> old(limiter.infos)[x].revoked
    {
      ghost var auth, uids, v := server.auth, limiter.uidOf, limiter.View();
      ghost var deleted, added, modified;
      ok, deleted, added, modified := ApplyDifference(users, delOk, addOk);
      SnapshotOutcome(ok, userList, users, delOk, auth, uids, v, deleted, added, modified,
                      server.auth, limiter.uidOf, limiter.View());
    }

    method ApplyDifference(users: seq<User>, delOk: bool, addOk: bool)
        returns (ok: bool, ghost deleted: seq<User>, ghost added: seq<User>, ghost modified: seq<User>)
      requires limiter.Valid() && UniqueUuids(userList) && UniqueUuids(users)
      modifies server, limiter, limiter.infos.Values
      ensures IsDelta(userList, users, deleted, added, modified)
      ensures ok <==> (deleted != [] ==> delOk) && (added != [] ==> addOk)
      ensures limiter.Valid() && fresh(limiter.infos.Values - old(limiter.infos.Values))
      ensures server.auth == if ok then IdsAfterAdd(old(server.auth) - Uuids(deleted), added)
                             else old(server.auth) - GoneBefore(deleted, delOk)
      ensures limiter.uidOf
           == if ok then IdsAfterAdd(old(limiter.uidOf) - Uuids(deleted), added) else old(limiter.uidOf)
      ensures limiter.View() == if ok then Updated(old(limiter.View()), deleted, modified, added)
                                else AfterRevoke(old(limiter.View()), GoneBefore(deleted, delOk))
      ensures ok ==> forall x :: x in old(limiter.infos) && x !in limiter.infos ==> old(limiter.infos)[x].revoked
    {
      var d, a, m := CompareUserList(userList, users);
      deleted, added, modified := d, a, m;
      ok := ApplyDelta(d, a, m, delOk, addOk);
    }

    /** The new list and its ETag, once the core and the limiter hold it. */
    method Install(users: seq<User>, tag: string)
      requires ValidUsers(users) && limiter.Valid()
               && Matches(users, server.auth.Keys, limiter.uidOf.Keys, limiter.View())
      modifies this
      ensures Consistent() && userList == users && etag == tag && generation == old(generation)
      ensures limiter.View() == old(limiter.View())
    {
      ghost var w := limiter.View();
      userList, etag := users, tag;
      assert limiter.View() == w;
    }

    /** revokeReportedUsers. The generation moves even when the core refuses. */
    method RevokeReportedUsers(ids: seq<int>, delOk: bool) returns (ok: bool)
      requires limiter.Valid()
      modifies this, server, limiter, limiter.infos.Values
      ensures generation == if ids == [] then old(generation) else old(generation) + 1
      ensures ok == (delOk || ids == [])
      ensures ok && ids != [] ==>
                && etag == "" && limiter.Valid()
                && HasLost(set x | x in ids, old(userList), old(server.auth), old(limiter.uidOf), old(limiter.View()))
      ensures ok && ids != [] ==>
                forall x :: x in old(limiter.infos) && x !in limiter.infos ==> old(limiter.infos)[x].revoked
      ensures old(Consistent()) ==> Consistent()
      ensures !ok || ids == [] ==>
                && userList == old(userList) && etag == old(etag) && unchanged(server, limiter)
                && limiter.View() == old(limiter.View())
    {
      if |ids| == 0 {
        return true;
      }
      generation := generation + 1;
      var revoked := SetOf(ids);
      if !delOk {
        return false;
      }
      RevokeIds(revoked);
      return true;
    }

    /** The users with these ids are gone from the list, the core and the limiter, and nobody else. */
    ghost predicate HasLost(ids: set<int>, users: seq<User>, auth: map<string, int>, uids: map<string, int>, v: Limits)
      reads this, server, limiter, limiter.infos.Values
    {
      var gone := Uuids(Dropped(users, ids));
      && userList == Kept(users, ids) && server.auth == auth - gone
      && limiter.View() == v - gone && limiter.uidOf == uids - gone
    }

    method RevokeIds(ids: set<int>)
      requires limiter.Valid()
      modifies this, server, limiter, limiter.infos.Values
      ensures generation == old(generation) && etag == "" && limiter.Valid()
      ensures HasLost(ids, old(userList), old(server.auth), old(limiter.uidOf), old(limiter.View()))
      ensures old(Consistent()) ==> Consistent()
      ensures forall x :: x in old(limiter.infos) && x !in limiter.infos ==> old(limiter.infos)[x].revoked
    {
      ghost var v := limiter.View();
      RevocationKeepsMatching(userList, ids, server.auth, limiter.uidOf, v);
      var kept, deleted := Split(userList, ids);
      Remove(deleted);
      ghost var w := limiter.View();
      userList, etag := kept, "";
      assert limiter.View() == w;
    }

    method Remove(deleted: seq<User>)
      requires limiter.Valid()
      modifies server, limiter, limiter.infos.Values
      ensures limiter.Valid() && limiter.View() == old(limiter.View()) - Uuids(deleted)
      ensures server.auth == old(server.auth) - Uuids(deleted) && limiter.uidOf == old(limiter.uidOf) - Uuids(deleted)
      ensures forall x :: x in old(limiter.infos) && x !in limiter.infos ==> old(limiter.infos)[x].revoked
    {
      ghost var v := limiter.View();
      server.DelUsers(deleted, limiter);
      RevokeThenDelete(v, Uuids(deleted));
      limiter.UpdateUser([], deleted, []);
    }
  }

  /** The limiter holds exactly the users of the list, and the core those of them that are not revoked. */
  predicate Matches(users: seq<User>, auth: set<string>, uids: set<string>, v: Limits) {
    auth <= Uuids(users) && uids == Uuids(users) && Agrees(v, users, auth)
  }

  lemma RebuiltMatches(users: seq<User>)
    requires ValidUsers(users)
    ensures Matches(users, IdsAfterAdd(map[], users).Keys, IdsAfterAdd(map[], users).Keys, Rebuilt(users))
    ensures UidsAgree(Rebuilt(users), users) && CoreUidsAgree(IdsAfterAdd(map[], users), users)
    ensures IdsAfterAdd(map[], users).Keys == Uuids(users)
  {
    RebuiltAgrees(users);
    IdsAt(map[], users);
  }

  /** From UIDs that agree, the new ones agree exactly when no surviving user's UID was changed: in the
      limiter, and in the core as far as it authorises the user. With all users authorised and no UID
      changed, the limiter is what a rebuild gives. */
  ghost predicate UidsFollow(was: seq<User>, users: seq<User>, auth: map<string, int>, auth': map<string, int>,
                             v: Limits, v': Limits) {
    && (UidsAgree(v, was) ==>
          && (UidsAgree(v', users) <==> UidsStable(Uuids(was), was, users))
          && (UidsStable(Uuids(was), was, users) && auth'.Keys == Uuids(users) ==> v' == Rebuilt(users)))
    && (CoreUidsAgree(auth, was) ==> (CoreUidsAgree(auth', users) <==> UidsStable(auth.Keys, was, users)))
  }

  lemma RevokeTwice(v: Limits, a: set<string>, b: set<string>)
    ensures AfterRevoke(AfterRevoke(v, a), b) == AfterRevoke(v, a + b)
  {
  }

  lemma RevokeThenDelete(v: Limits, uuids: set<string>)
    ensures AfterRevoke(v, uuids) - uuids == v - uuids
  {
  }

  /** What an accepted snapshot leaves: everything matches the new list; the users that left are not
      authorised, those that came are, the others are as before. So exactly the new list is authorised
      if and only if the core had authorised all users that both lists have. */
  ghost predicate Accepted(was: seq<User>, users: seq<User>, auth: map<string, int>, auth': map<string, int>,
                           uids': map<string, int>, v: Limits, v': Limits) {
    && Matches(users, auth'.Keys, uids'.Keys, v')
    && auth'.Keys == auth.Keys - (Uuids(was) - Uuids(users)) + (Uuids(users) - Uuids(was))
    && (auth'.Keys == Uuids(users) <==> Uuids(was) * Uuids(users) <= auth.Keys)
    && UidsFollow(was, users, auth, auth', v, v')
  }

  /** What a refused one leaves: the old list, and without the users that should have left if the core
      deleted them. */
  ghost predicate Refused(was: seq<User>, users: seq<User>, deleted: bool, auth: map<string, int>,
                          auth': map<string, int>, uids': map<string, int>, v': Limits) {
    && Matches(was, auth'.Keys, uids'.Keys, v')
    && auth'.Keys == auth.Keys - if deleted then Uuids(was) - Uuids(users) else {}
  }

  /** What the difference of the lists does to a core and a limiter that match the old one. */
  lemma SnapshotOutcome(ok: bool, was: seq<User>, users: seq<User>, delOk: bool,
                        auth: map<string, int>, uids: map<string, int>, v: Limits,
                        deleted: seq<User>, added: seq<User>, modified: seq<User>,
                        auth': map<string, int>, uids': map<string, int>, v': Limits)
    requires Matches(was, auth.Keys, uids.Keys, v) && ValidUsers(was) && ValidUsers(users)
    requires IsDelta(was, users, deleted, added, modified)
    requires auth' == if ok then IdsAfterAdd(auth - Uuids(deleted), added) else auth - GoneBefore(deleted, delOk)
    requires uids' == if ok then IdsAfterAdd(uids - Uuids(deleted), added) else uids
    requires v' == if ok then Updated(v, deleted, modified, added) else AfterRevoke(v, GoneBefore(deleted, delOk))
    ensures (deleted == [] <==> Uuids(was) <= Uuids(users)) && (added == [] <==> Uuids(users) <= Uuids(was))
    ensures if ok
            then Accepted(was, users, auth, auth', uids', v, v')
            else Refused(was, users, delOk, auth, auth', uids', v')
  {
    DeltaOutcomes(was, users, delOk, auth, uids, v, deleted, added, modified);
  }

  lemma NoUuids(users: seq<User>)
    ensures users == [] <==> Uuids(users) == {}
  {
    if users != [] {
      assert users[0] in users && users[0].uuid in Uuids(users);
    }
  }

  /** The users that a refused call has deleted: none if the deletion itself was refused. */
  function GoneBefore(deleted: seq<User>, delOk: bool): set<string> { if delOk then Uuids(deleted) else {} }

  lemma DeltaOutcomes(was: seq<User>, users: seq<User>, delOk: bool, auth: map<string, int>, uids: map<string, int>,
                      v: Limits, deleted: seq<User>, added: seq<User>, modified: seq<User>)
    requires Matches(was, auth.Keys, uids.Keys, v) && ValidUsers(was) && ValidUsers(users)
             && IsDelta(was, users, deleted, added, modified)
    ensures (deleted == [] <==> Uuids(was) <= Uuids(users)) && (added == [] <==> Uuids(users) <= Uuids(was))
    ensures Accepted(was, users, auth, IdsAfterAdd(auth - Uuids(deleted), added),
                     IdsAfterAdd(uids - Uuids(deleted), added), v, Updated(v, deleted, modified, added))
    ensures var gone := GoneBefore(deleted, delOk);
            Refused(was, users, delOk, auth, auth - gone, uids, AfterRevoke(v, gone))
  {
    DeltaUuids(was, users, deleted, added, modified);
    NoUuids(deleted);
    NoUuids(added);
    RefusalMatches(was, GoneBefore(deleted, delOk), auth, uids.Keys, v);
    DeltaMatches(was, users, auth, uids, v, deleted, added, modified);
    DeltaUidsFollow(was, users, auth, uids, v, deleted, added, modified);
  }

  /** After an accepted delta everything matches again, and exactly the users of the new list are
      authorised if and only if the core had authorised all those that were listed before. */
  lemma DeltaMatches(was: seq<User>, users: seq<User>, auth: map<string, int>, uids: map<string, int>, v: Limits,
                     deleted: seq<User>, added: seq<User>, modified: seq<User>)
    requires Matches(was, auth.Keys, uids.Keys, v) && ValidUsers(was) && ValidUsers(users)
             && IsDelta(was, users, deleted, added, modified)
    ensures Matches(users, IdsAfterAdd(auth - Uuids(deleted), added).Keys,
                    IdsAfterAdd(uids - Uuids(deleted), added).Keys, Updated(v, deleted, modified, added))
    ensures IdsAfterAdd(auth - Uuids(deleted), added).Keys
         == auth.Keys - (Uuids(was) - Uuids(users)) + (Uuids(users) - Uuids(was))
    ensures IdsAfterAdd(auth - Uuids(deleted), added).Keys == Uuids(users) <==> Uuids(was) * Uuids(users) <= auth.Keys
  {
    DeltaUuids(was, users, deleted, added, modified);
    IdsAt(auth - Uuids(deleted), added);
    IdsAt(uids - Uuids(deleted), added);
    DeltaEqualsRebuild(v, was, users, auth.Keys, deleted, added, modified);
    AllAuthorisedIff(auth.Keys, Uuids(was), Uuids(users));
  }

  lemma AllAuthorisedIff(auth: set<string>, was: set<string>, users: set<string>)
    requires auth <= was
    ensures auth - (was - users) + (users - was) <= users
    ensures auth - (was - users) + (users - was) == users <==> was * users <= auth
  {
    if auth - (was - users) + (users - was) == users {
      forall x | x in was * users
        ensures x in auth
      {
        assert x in auth - (was - users) + (users - was);
      }
    }
  }

  lemma DeltaUidsFollow(was: seq<User>, users: seq<User>, auth: map<string, int>, uids: map<string, int>, v: Limits,
                        deleted: seq<User>, added: seq<User>, modified: seq<User>)
    requires Matches(was, auth.Keys, uids.Keys, v) && ValidUsers(was) && ValidUsers(users)
             && IsDelta(was, users, deleted, added, modified)
    ensures UidsFollow(was, users, auth, IdsAfterAdd(auth - Uuids(deleted), added), v,
                       Updated(v, deleted, modified, added))
  {
    DeltaMatches(was, users, auth, uids, v, deleted, added, modified);
    if UidsAgree(v, was) {
      DeltaUidsEqualRebuildIff(v, was, users, deleted, added, modified);
      if UidsStable(Uuids(was), was, users) && IdsAfterAdd(auth - Uuids(deleted), added).Keys == Uuids(users) {
        AgreeingIsRebuilt(Updated(v, deleted, modified, added), users);
      }
    }
    if CoreUidsAgree(auth, was) {
      CoreUidsEqualRebuildIff(auth, was, users, deleted, added, modified);
    }
  }

  /** A refused AddUsers leaves the deleted users in the list, unauthorised and revoked. */
  lemma RefusalMatches(users: seq<User>, gone: set<string>, auth: map<string, int>, uids: set<string>, v: Limits)
    requires Matches(users, auth.Keys, uids, v)
    ensures Matches(users, (auth - gone).Keys, uids, AfterRevoke(v, gone))
  {
  }

  /** A revocation leaves the core and the limiter with exactly the users who are left. */
  lemma RevocationMatches(users: seq<User>, ids: set<int>, auth: set<string>, uids: set<string>, v: Limits)
    requires ValidUsers(users) && Matches(users, auth, uids, v)
    ensures ValidUsers(Kept(users, ids))
    ensures var gone := Uuids(Dropped(users, ids));
            Matches(Kept(users, ids), auth - gone, uids - gone, v - gone)
    ensures forall u :: u in Kept(users, ids) <==> u in users && u.id !in ids
  {
    KeptOrDropped(users, ids);
    SplitUuids(users, ids);
    KeptIsUnique(users, ids);
  }

  lemma RevocationKeepsMatching(users: seq<User>, ids: set<int>, auth: map<string, int>, uids: map<string, int>,
                                v: Limits)
    ensures var gone := Uuids(Dropped(users, ids));
            ValidUsers(users) && Matches(users, auth.Keys, uids.Keys, v) ==>
              && ValidUsers(Kept(users, ids))
              && Matches(Kept(users, ids), (auth - gone).Keys, (uids - gone).Keys, v - gone)
  {
    if ValidUsers(users) && Matches(users, auth.Keys, uids.Keys, v) {
      RevocationMatches(users, ids, auth.Keys, uids.Keys, v);
    }
  }

  method SetOf(ids: seq<int>) returns (r: set<int>)
    ensures r == set x | x in ids
  {
    r := {};
    for i := 0 to |ids|
      invariant r == set x | x in ids[..i]
    {
      assert ids[..i + 1] == ids[..i] + [ids[i]];
      r := r + {ids[i]};
    }
    assert ids[..|ids|] == ids;
  }

  /** The loop that separates the users to revoke from the others. */
  method Split(users: seq<User>, ids: set<int>) returns (kept: seq<User>, out: seq<User>)
    ensures kept == Kept(users, ids) && out == Dropped(users, ids)
  {
    kept, out := [], [];
    for i := 0 to |users|
      invariant kept == Kept(users[..i], ids) && out == Dropped(users[..i], ids)
    {
      assert users[..i + 1][..i] == users[..i];
      if users[i].id in ids {
        out := out + [users[i]];
      } else {
        kept := kept + [users[i]];
      }
    }
    assert users[..|users|] == users;
  }

  /** The input for which an accepted list does not authorise its user: listed, refused while it was
      replaced, and listed again. */
  method RefusalStrands() returns (c: Controller)
    ensures fresh(c) && fresh(c.server) && fresh(c.limiter)
    ensures c.Consistent() && c.userList == [User(1, "a", 0, 0)] && c.etag == "2" && c.server.auth == map[]
  {
    OneUser(User(1, "a", 0, 0));
    c := new Controller([User(1, "a", 0, 0)], "");
    RefuseReplacement(c);
    var accepted := c.ApplySnapshot([User(1, "a", 0, 0)], "2", true, true);
    assert c.server.auth.Keys == {};
  }

  method RefuseReplacement(c: Controller)
    requires c.Consistent() && c.userList == [User(1, "a", 0, 0)] && c.server.auth.Keys == {"a"}
    modifies c, c.server, c.limiter, c.limiter.infos.Values
    ensures c.Consistent() && c.userList == [User(1, "a", 0, 0)] && c.server.auth.Keys == {}
    ensures fresh(c.limiter.infos.Values - old(c.limiter.infos.Values))
  {
    OneUser(User(1, "a", 0, 0));
    OneUser(User(2, "b", 0, 0));
    var refused := c.ApplySnapshot([User(2, "b", 0, 0)], "1", true, false);
    assert "b" in Uuids([User(2, "b", 0, 0)]) && !refused;
  }

  lemma OneUser(u: User)
    ensures Uuids([u]) == {u.uuid} && (ValidUser(u) ==> ValidUsers([u]))
  {
    assert [u][0] in [u];
  }
}
