/** The other side of the revocation barrier: traffic of an authorised user is counted. */
module ServedUsers {
  import opened Options
  import opened RevocationBarrier
  import opened CountedBytes

  // ---- authorised users have live cache entries ----

  /** What a callback finds or stores for an authorised user carries a limit that is not revoked. */
  predicate FreshEntries(n: Node) {
    && (forall u :: u in n.auth && u in n.cacheOf ==> EntryIsLive(n, n.cacheOf[u]))
    && (forall id :: id in n.calls && Admitted(n.calls[id]) && n.calls[id].uuid in n.auth ==>
          n.calls[id].limit < |n.revoked| && !n.revoked[n.calls[id].limit])
  }

  predicate EntryIsLive(n: Node, k: nat) {
    k < |n.caches| && n.caches[k].limit < |n.revoked| && !n.revoked[n.caches[k].limit]
  }

  lemma StoredEntryIsLive(n: Node, id: nat)
    requires Inv(n) && CallEnabled(n, Store(id)) && FreshEntries(n)
    ensures var m, u := Shared(n, Store(id)), n.calls[id].uuid;
            u in m.cacheOf && (u in n.auth ==> EntryIsLive(m, m.cacheOf[u]))
            && (forall v :: v in m.cacheOf && v != u ==> v in n.cacheOf && m.cacheOf[v] == n.cacheOf[v])
  {
    assert CallOk(n, id, n.calls[id]);
  }

  lemma CallbackKeepsEntries(n: Node, a: Action)
    requires Inv(n) && OfCallback(a) && CallEnabled(n, a) && FreshEntries(n)
    ensures var m := Shared(n, a); forall u :: u in m.auth && u in m.cacheOf ==> EntryIsLive(m, m.cacheOf[u])
  {
    CallbacksKeep(n, a);
    CachesOnlyGrow(n, a);
    if a.Store? {
      StoredEntryIsLive(n, a.id);
    } else {
      assert Shared(n, a).cacheOf == n.cacheOf && Shared(n, a).caches == n.caches;
    }
  }

  /** A call is only admitted by a limit that is not revoked. */
  lemma OwnAdmissionIsLive(n: Node, a: Action)
    requires OfCallback(a) && CallEnabled(n, a) && FreshEntries(n)
    requires After(n, a).Becomes? && Admitted(After(n, a).call) && After(n, a).call.uuid in n.auth
    ensures After(n, a).call.limit < |n.revoked| && !n.revoked[After(n, a).call.limit]
  {
  }

  lemma CallbackKeepsFresh(n: Node, a: Action)
    requires Inv(n) && OfCallback(a) && CallEnabled(n, a) && FreshEntries(n)
    ensures FreshEntries(CallStep(n, a))
  {
    var m := CallStep(n, a);
    CallbacksKeep(n, a);
    CallbackKeepsEntries(n, a);
    forall id | id in m.calls && Admitted(m.calls[id]) && m.calls[id].uuid in m.auth
      ensures m.calls[id].limit < |m.revoked| && !m.revoked[m.calls[id].limit]
    {
      if id == a.id {
        OwnAdmissionIsLive(n, a);
      }
    }
  }

  /** A revoked limit is that of a user who is not authorised. */
  lemma RevokingSparesOthers(n: Node, a: Action, u: string)
    requires Inv(n) && !OfCallback(a) && AdminEnabled(n, a) && (a.SetRevoked? || a.DeleteLimit?)
    requires u in n.auth && u in n.limitOf && !n.revoked[n.limitOf[u]]
    ensures !AdminStep(n, a).revoked[n.limitOf[u]]
  {
  }

  lemma LiveEntryIsMapped(n: Node, k: nat)
    requires Inv(n) && EntryIsLive(n, k)
    ensures n.caches[k].uuid in n.limitOf && n.limitOf[n.caches[k].uuid] == n.caches[k].limit
  {
  }

  lemma AdministrationKeepsFresh(n: Node, a: Action)
    requires Inv(n) && !OfCallback(a) && AdminEnabled(n, a) && FreshEntries(n)
    ensures FreshEntries(AdminStep(n, a))
  {
    var m := AdminStep(n, a);
    AdministrationKeeps(n, a);
    forall u | u in m.auth && u in m.cacheOf
      ensures EntryIsLive(m, m.cacheOf[u])
    {
      assert u in n.auth && m.cacheOf[u] == n.cacheOf[u];
      LiveEntryIsMapped(n, n.cacheOf[u]);
      if a.SetRevoked? || a.DeleteLimit? {
        RevokingSparesOthers(n, a, u);
      }
    }
    forall id | id in m.calls && Admitted(m.calls[id]) && m.calls[id].uuid in m.auth
      ensures m.calls[id].limit < |m.revoked| && !m.revoked[m.calls[id].limit]
    {
      assert CallOk(n, id, n.calls[id]);
      if a.SetRevoked? || a.DeleteLimit? {
        RevokingSparesOthers(n, a, m.calls[id].uuid);
      }
    }
  }

  lemma {:induction false} RunsKeepFresh(s: Node, acts: seq<Action>)
    requires Initial(s) && Exec(s, acts).Some?
    ensures Inv(Exec(s, acts).value) && FreshEntries(Exec(s, acts).value)
    decreases |acts|
  {
    InitialIsInv(s);
    RunsKeepInv(s, acts);
    if acts != [] {
      var init, a := acts[..|acts| - 1], acts[|acts| - 1];
      RunsKeepFresh(s, init);
      if OfCallback(a) {
        CallbackKeepsFresh(Exec(s, init).value, a);
      } else {
        AdministrationKeepsFresh(Exec(s, init).value, a);
      }
    }
  }

  // ---- a call that runs alone ----

  /** These steps, all of the call `id`, lead to `m`. */
  predicate Leads(n: Node, acts: seq<Action>, m: Node, id: nat) {
    Exec(n, acts) == Some(m) && forall a :: a in acts ==> OfCallback(a) && a.id == id
  }

  lemma Then(n: Node, acts: seq<Action>, m: Node, a: Action)
    requires OfCallback(a) && Leads(n, acts, m, a.id) && CallEnabled(m, a)
    ensures Leads(n, acts + [a], CallStep(m, a), a.id)
  {
    assert (acts + [a])[..|acts|] == acts;
  }

  /** The call has found a live entry of `u`; nothing was counted on the way. */
  ghost predicate Found(n: Node, m: Node, id: nat, u: string, tx: nat, rx: nat) {
    && id in m.calls && m.calls[id].Has? && m.calls[id].tx == tx && m.calls[id].rx == rx
    && EntryIsLive(m, m.calls[id].cache) && m.caches[m.calls[id].cache].uuid == u
    && m.caches[m.calls[id].cache].storage < |m.storages|
    && m.storages[m.caches[m.calls[id].cache].storage].uuid == u
    && (forall v ::
          UpTotal(m.storages, v) == UpTotal(n.storages, v) && DownTotal(m.storages, v) == DownTotal(n.storages, v))
  }

  /** getUser on an entry that is cached. */
  lemma FindsCached(n: Node, id: nat, u: string, tx: nat, rx: nat) returns (acts: seq<Action>, m: Node)
    requires Inv(n) && FreshEntries(n) && id !in n.calls && u in n.auth && u in n.cacheOf
    ensures Leads(n, acts, m, id) && Found(n, m, id, u, tx, rx)
  {
    var n1 := CallStep(n, Enter(id, u, tx, rx));
    Then(n, [], n, Enter(id, u, tx, rx));
    Then(n, [] + [Enter(id, u, tx, rx)], n1, FastPath(id));
    acts, m := [] + [Enter(id, u, tx, rx)] + [FastPath(id)], CallStep(n1, FastPath(id));
  }

  /** getUser without an entry: it makes one, with the counter of the user. */
  lemma FindsNew(n: Node, id: nat, u: string, tx: nat, rx: nat) returns (acts: seq<Action>, m: Node)
    requires Inv(n) && id !in n.calls && u !in n.cacheOf && n.cacheMu == Nobody
    requires u in n.limitOf && !n.revoked[n.limitOf[u]]
    ensures Leads(n, acts, m, id) && Found(n, m, id, u, tx, rx)
  {
    var n1 := CallStep(n, Enter(id, u, tx, rx));
    var n2 := CallStep(n1, TakeCacheMu(id));
    var n3 := CallStep(n2, SecondLook(id));
    Then(n, [], n, Enter(id, u, tx, rx));
    Then(n, [] + [Enter(id, u, tx, rx)], n1, TakeCacheMu(id));
    Then(n, [] + [Enter(id, u, tx, rx)] + [TakeCacheMu(id)], n2, SecondLook(id));
    acts, m := MakesEntry(n, [] + [Enter(id, u, tx, rx)] + [TakeCacheMu(id)] + [SecondLook(id)], n3, id, u, tx, rx);
  }

  lemma MakesEntry(n: Node, acts: seq<Action>, n3: Node, id: nat, u: string, tx: nat, rx: nat)
      returns (all: seq<Action>, m: Node)
    requires Inv(n) && Leads(n, acts, n3, id) && n3 == n.(calls := n3.calls, cacheMu := n3.cacheMu)
    requires u !in n.cacheOf && u in n.limitOf && !n.revoked[n.limitOf[u]]
    requires id in n3.calls && n3.calls[id] == Checked(u, tx, rx, n.limitOf[u])
    ensures Leads(n, all, m, id) && Found(n, m, id, u, tx, rx)
  {
    var n4 := CallStep(n3, GetCounter(id));
    Then(n, acts, n3, GetCounter(id));
    Then(n, acts + [GetCounter(id)], n4, Store(id));
    all, m := acts + [GetCounter(id)] + [Store(id)], CallStep(n4, Store(id));
    forall v
      ensures UpTotal(m.storages, v) == UpTotal(n.storages, v) && DownTotal(m.storages, v) == DownTotal(n.storages, v)
    {
      TotalsExtend(n.storages, Storage(u, 0, 0), v);
    }
  }

  /** The rest of LogTraffic: past the check, both directions are counted, and the call returns. */
  lemma CountsBoth(n: Node, acts: seq<Action>, n0: Node, id: nat, u: string, tx: nat, rx: nat)
      returns (all: seq<Action>, m: Node)
    requires Leads(n, acts, n0, id) && Found(n, n0, id, u, tx, rx)
    ensures Leads(n, all, m, id) && id !in m.calls
    ensures UpTotal(m.storages, u) == UpTotal(n.storages, u) + tx
    ensures DownTotal(m.storages, u) == DownTotal(n.storages, u) + rx
  {
    var n1 := CallStep(n0, ReadLock(id));
    var n2 := CallStep(n1, CheckRevoked(id));
    var n3 := CallStep(n2, AddDownload(id));
    var k := n0.caches[n0.calls[id].cache].storage;
    Then(n, acts, n0, ReadLock(id));
    Then(n, acts + [ReadLock(id)], n1, CheckRevoked(id));
    Then(n, acts + [ReadLock(id)] + [CheckRevoked(id)], n2, AddDownload(id));
    Then(n, acts + [ReadLock(id)] + [CheckRevoked(id)] + [AddDownload(id)], n3, AddUpload(id));
    all := acts + [ReadLock(id)] + [CheckRevoked(id)] + [AddDownload(id)] + [AddUpload(id)];
    m := CallStep(n3, AddUpload(id));
    TotalsUpdate(n0.storages, k, n3.storages[k], u);
    TotalsUpdate(n3.storages, k, m.storages[k], u);
  }

  /** Traffic of an authorised user whose limit is not revoked is counted. At every reachable moment at
      which nobody holds cacheMu, a new LogTraffic call of this user, running alone, is never refused
      and never waits: it ends with exactly its bytes in the counters of the user. */
  lemma ServedUserIsCounted(s: Node, before: seq<Action>, id: nat, u: string, tx: nat, rx: nat)
      returns (acts: seq<Action>, m: Node)
    requires Initial(s) && Exec(s, before).Some? && id !in Exec(s, before).value.calls
    requires var n := Exec(s, before).value;
             u in n.auth && n.cacheMu == Nobody && u in n.limitOf
             && n.limitOf[u] < |n.revoked| && !n.revoked[n.limitOf[u]]
    ensures var n := Exec(s, before).value;
            && Leads(n, acts, m, id) && id !in m.calls
            && UpTotal(m.storages, u) == UpTotal(n.storages, u) + tx
            && DownTotal(m.storages, u) == DownTotal(n.storages, u) + rx
  {
    RunsKeepFresh(s, before);
    var n := Exec(s, before).value;
    var n0;
    if u in n.cacheOf {
      acts, n0 := FindsCached(n, id, u, tx, rx);
    } else {
      acts, n0 := FindsNew(n, id, u, tx, rx);
    }
    acts, m := CountsBoth(n, acts, n0, id, u, tx, rx);
  }

  /** A user who is added, and given a limit, is served: both under the UID of the list. */
  lemma AddedUserIsCounted(s: Node, before: seq<Action>, uid: int, id: nat, u: string, tx: nat, rx: nat)
      returns (acts: seq<Action>, m: Node)
    requires Initial(s) && Exec(s, before).Some? && id !in Exec(s, before).value.calls
    requires var n := Exec(s, before).value;
             n.cacheMu == Nobody && Enabled(n, AddUser(u, uid)) && u !in n.limitOf
    ensures Exec(s, before + [AddUser(u, uid)] + [AddLimit(u)]).Some?
    ensures var n := Exec(s, before + [AddUser(u, uid)] + [AddLimit(u)]).value;
            && n.uidMap == Exec(s, before).value.uidMap[u := uid] && n.auth == Exec(s, before).value.auth[u := uid]
            && Leads(n, acts, m, id) && id !in m.calls
            && UpTotal(m.storages, u) == UpTotal(n.storages, u) + tx
            && DownTotal(m.storages, u) == DownTotal(n.storages, u) + rx
  {
    var a, b := before + [AddUser(u, uid)], before + [AddUser(u, uid)] + [AddLimit(u)];
    assert a[..|before|] == before && b[..|a|] == a;
    acts, m := ServedUserIsCounted(s, b, id, u, tx, rx);
  }
}
