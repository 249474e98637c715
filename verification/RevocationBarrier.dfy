/** Traffic callbacks against revocation (core/officialhy2/hook.go, accounting.go, manager.go,
    core/user.go): any number of callbacks, interleaved step by step with the administration of
    users. Objects that the program shares by reference (limits, cache entries, counters) are
    named by their index. */
module RevocationBarrier {
  import opened Options

  /** trafficUserCache */
  datatype Cache = Cache(uuid: string, storage: nat, limit: nat)

  /** TrafficStorage, with the UUID it was created for. */
  datatype Storage = Storage(uuid: string, up: nat, down: nat)

  /** A running LogTraffic call. */
  datatype Call =
    | Entered(uuid: string, tx: nat, rx: nat)                // before getUser
    | Creating(uuid: string, tx: nat, rx: nat)               // holds cacheMu
    | Checked(uuid: string, tx: nat, rx: nat, limit: nat)    // holds cacheMu, saw a limit that was not revoked
    | Holding(uuid: string, tx: nat, rx: nat, limit: nat, storage: nat)   // holds cacheMu, has its counter
    | Has(cache: nat, tx: nat, rx: nat)                      // getUser has returned
    | Reading(cache: nat, tx: nat, rx: nat)                  // holds the read lock of the entry
    | Passed(cache: nat, tx: nat, rx: nat)                   // passed the Revoked check, still holds the lock
    | HalfDone(cache: nat, tx: nat)                          // has counted the download

  datatype Outcome = Ends | Becomes(call: Call)

  datatype Owner = Nobody | Callback(id: nat) | Administrator

  /** Progress of DelUsers inside its locks: users still to do, users settled. */
  datatype Phase = Next | Unauthorised | Revoked | Settling | Settled
  datatype Admin = Free | Deleting(todo: seq<string>, done: seq<string>, phase: Phase)

  datatype Node = Node(
    revoked: seq<bool>,             // UserLimitInfo.Revoked, by object
    limitOf: map<string, nat>,      // limiter: UUID to limit object
    caches: seq<Cache>,
    cacheOf: map<string, nat>,      // trafficLogger.users
    storages: seq<Storage>,
    counterOf: map<string, nat>,    // TrafficCounter.Counters
    auth: map<string, int>,         // Authenticator.users
    uidMap: map<string, int>,
    calls: map<nat, Call>,
    cacheMu: Owner,
    admin: Admin)

  datatype Action =
    // callbacks
    | Enter(id: nat, uuid: string, tx: nat, rx: nat)
    | FastPath(id: nat)
    | TakeCacheMu(id: nat)
    | SecondLook(id: nat)
    | GetCounter(id: nat)
    | Store(id: nat)
    | ReadLock(id: nat)
    | CheckRevoked(id: nat)
    | OverLimit(id: nat)
    | AddDownload(id: nat)
    | AddUpload(id: nat)
    // administration
    | AddUser(uuid: string, uid: int)
    | AddLimit(uuid: string)
    | DeleteLimit(uuid: string)
    | BeginDelete(uuids: seq<string>)
    | RemoveAuth
    | SetRevoked
    | LockCache
    | Barrier
    | Unmap
    | Prune
    | Commit(uuid: string, up: nat, down: nat)

  // ---- queries ----

  /** The user whose deletion is between its first step and its barrier. */
  predicate BeingDeleted(n: Node, u: string) { InProgress(n.admin, u) }

  predicate InProgress(admin: Admin, u: string) {
    admin.Deleting? && admin.todo != [] && admin.todo[0] == u && admin.phase != Next
  }

  /** The UUID has a counter with unreported bytes. */
  predicate NonZero(n: Node, u: string) { HasBytes(n.storages, n.counterOf, u) }

  predicate HasBytes(storages: seq<Storage>, counterOf: map<string, nat>, u: string) {
    u in counterOf && counterOf[u] < |storages| && storages[counterOf[u]].up + storages[counterOf[u]].down != 0
  }

  /** The call is past the permission check and will add its bytes. */
  predicate Counting(c: Call) { c.Passed? || c.HalfDone? }

  predicate HoldsReadLock(c: Call) { c.Reading? || c.Passed? || c.HalfDone? }

  predicate InCacheMu(c: Call) { c.Creating? || c.Checked? || c.Holding? }

  /** The call has seen a limit that was not revoked and has still to store its cache entry. */
  predicate Admitted(c: Call) { c.Checked? || c.Holding? }

  predicate OnCache(c: Call) { c.Has? || c.Reading? || c.Passed? || c.HalfDone? }

  /** The step belongs to a callback, the one named by `id`. */
  predicate OfCallback(a: Action) {
    || a.Enter? || a.FastPath? || a.TakeCacheMu? || a.SecondLook? || a.GetCounter? || a.Store?
    || a.ReadLock? || a.CheckRevoked? || a.OverLimit? || a.AddDownload? || a.AddUpload?
  }

  // ---- steps ----

  predicate Enabled(n: Node, a: Action) { if OfCallback(a) then CallEnabled(n, a) else AdminEnabled(n, a) }

  predicate CanLookAgain(n: Node, id: nat) {
    && id in n.calls && n.calls[id].Creating?
    && (n.calls[id].uuid in n.limitOf ==> n.limitOf[n.calls[id].uuid] < |n.revoked|)
  }

  predicate CallEnabled(n: Node, a: Action)
    requires OfCallback(a)
  {
    match a
    case Enter(id, _, _, _) => id !in n.calls
    case FastPath(id) =>
      && id in n.calls && n.calls[id].Entered? && n.calls[id].uuid in n.cacheOf
      && n.cacheOf[n.calls[id].uuid] < |n.caches| && n.caches[n.cacheOf[n.calls[id].uuid]].limit < |n.revoked|
    case TakeCacheMu(id) => id in n.calls && n.calls[id].Entered? && n.cacheMu == Nobody
    case SecondLook(id) => CanLookAgain(n, id)
    case GetCounter(id) => id in n.calls && n.calls[id].Checked?
    case Store(id) => id in n.calls && n.calls[id].Holding?
    case ReadLock(id) => id in n.calls && n.calls[id].Has?
    case CheckRevoked(id) =>
      && id in n.calls && n.calls[id].Reading? && n.calls[id].cache < |n.caches|
      && n.caches[n.calls[id].cache].limit < |n.revoked|
    case OverLimit(id) => id in n.calls && n.calls[id].Reading?
    case AddDownload(id) =>
      && id in n.calls && n.calls[id].Passed? && n.calls[id].cache < |n.caches|
      && n.caches[n.calls[id].cache].storage < |n.storages|
    case AddUpload(id) =>
      && id in n.calls && n.calls[id].HalfDone? && n.calls[id].cache < |n.caches|
      && n.caches[n.calls[id].cache].storage < |n.storages|
  }

  predicate AdminEnabled(n: Node, a: Action)
    requires !OfCallback(a)
  {
    match a
    case AddUser(uuid, uid) => n.admin.Free? && uuid !in n.auth && 0 < uid
    case AddLimit(uuid) => n.admin.Free? && uuid in n.auth && uuid !in n.limitOf
    case DeleteLimit(uuid) => n.admin.Free? && uuid !in n.auth && uuid in n.limitOf && n.limitOf[uuid] < |n.revoked|
    case BeginDelete(_) => n.admin.Free?
    case RemoveAuth => n.admin.Deleting? && n.admin.phase == Next && n.admin.todo != []
    case SetRevoked =>
      && n.admin.Deleting? && n.admin.phase == Unauthorised && n.admin.todo != []
      && (n.admin.todo[0] in n.limitOf ==> n.limitOf[n.admin.todo[0]] < |n.revoked|)
    case LockCache => n.admin.Deleting? && n.admin.phase == Phase.Revoked && n.cacheMu == Nobody
    case Barrier =>
      // trafficMu.Lock waits for every reader of the mapped entry
      && n.admin.Deleting? && n.admin.phase == Settling && n.admin.todo != []
      && forall id :: id in n.calls && HoldsReadLock(n.calls[id]) && n.admin.todo[0] in n.cacheOf ==>
           n.calls[id].cache != n.cacheOf[n.admin.todo[0]]
    case Unmap => n.admin.Deleting? && n.admin.phase == Settled && n.admin.todo != []
    case Prune => n.admin.Deleting? && n.admin.phase == Next && n.admin.todo == []
    case Commit(uuid, _, _) => n.admin.Free? && uuid in n.counterOf && n.counterOf[uuid] < |n.storages|
  }

  function Minus(x: nat, y: nat): nat { if x < y then 0 else x - y }

  /** PruneRetiredUsers and the removal from uidMap: retired users whose counters are zero. */
  function Retire(n: Node, uuids: set<string>): Node {
    var dead := set u | u in uuids && u !in n.auth && !NonZero(n, u);
    n.(counterOf := n.counterOf - dead, uidMap := n.uidMap - dead)
  }

  /** GetCounter on a UUID without a counter. */
  function WithCounter(n: Node, u: string): Node {
    n.(storages := n.storages + [Storage(u, 0, 0)], counterOf := n.counterOf[u := |n.storages|])
  }

  function Bump(n: Node, k: nat, up: nat, down: nat): Node
    requires k < |n.storages|
  {
    n.(storages := n.storages[k := n.storages[k].(up := n.storages[k].up + up, down := n.storages[k].down + down)])
  }

  function Step(n: Node, a: Action): Node
    requires Enabled(n, a)
  {
    if OfCallback(a) then CallStep(n, a) else AdminStep(n, a)
  }

  /** A step of a running LogTraffic call: what becomes of the call, who holds cacheMu, what changes
      in the shared objects. */
  function CallStep(n: Node, a: Action): Node
    requires OfCallback(a) && CallEnabled(n, a)
  {
    Shared(n, a).(calls := Put(n.calls, a.id, After(n, a)), cacheMu := MuAfter(n, a))
  }

  function Put(calls: map<nat, Call>, id: nat, o: Outcome): map<nat, Call> {
    if o.Ends? then calls - {id} else calls[id := o.call]
  }

  function After(n: Node, a: Action): Outcome
    requires OfCallback(a) && CallEnabled(n, a)
  {
    match a
    case Enter(id, uuid, tx, rx) => Becomes(Entered(uuid, tx, rx))
    case FastPath(id) =>
      var c := n.calls[id];
      if n.revoked[n.caches[n.cacheOf[c.uuid]].limit] then Ends else Becomes(Has(n.cacheOf[c.uuid], c.tx, c.rx))
    case TakeCacheMu(id) => Becomes(Creating(n.calls[id].uuid, n.calls[id].tx, n.calls[id].rx))
    case SecondLook(id) =>
      var c := n.calls[id];
      if c.uuid in n.cacheOf then Becomes(Has(n.cacheOf[c.uuid], c.tx, c.rx))
      else if c.uuid !in n.limitOf || n.revoked[n.limitOf[c.uuid]] then Ends
      else Becomes(Checked(c.uuid, c.tx, c.rx, n.limitOf[c.uuid]))
    case GetCounter(id) =>
      var c := n.calls[id];
      Becomes(Holding(c.uuid, c.tx, c.rx, c.limit, if c.uuid in n.counterOf then n.counterOf[c.uuid] else |n.storages|))
    case Store(id) =>
      var c := n.calls[id];
      Becomes(Has(if c.uuid in n.cacheOf then n.cacheOf[c.uuid] else |n.caches|, c.tx, c.rx))
    case ReadLock(id) => Becomes(Reading(n.calls[id].cache, n.calls[id].tx, n.calls[id].rx))
    case CheckRevoked(id) =>
      var c := n.calls[id];
      if n.revoked[n.caches[c.cache].limit] then Ends else Becomes(Passed(c.cache, c.tx, c.rx))
    case OverLimit(id) => Ends
    case AddDownload(id) => Becomes(HalfDone(n.calls[id].cache, n.calls[id].tx))
    case AddUpload(id) => Ends
  }

  function MuAfter(n: Node, a: Action): Owner
    requires OfCallback(a) && CallEnabled(n, a)
  {
    match a
    case TakeCacheMu(id) => Callback(id)
    case SecondLook(id) => if After(n, a).Becomes? && After(n, a).call.Checked? then n.cacheMu else Nobody
    case Store(id) => Nobody
    case _ => n.cacheMu
  }

  function Shared(n: Node, a: Action): Node
    requires OfCallback(a) && CallEnabled(n, a)
  {
    match a
    case GetCounter(id) => if n.calls[id].uuid in n.counterOf then n else WithCounter(n, n.calls[id].uuid)
    case Store(id) =>
      var c := n.calls[id];
      if c.uuid in n.cacheOf then n
      else n.(caches := n.caches + [Cache(c.uuid, c.storage, c.limit)], cacheOf := n.cacheOf[c.uuid := |n.caches|])
    case AddDownload(id) => Bump(n, n.caches[n.calls[id].cache].storage, 0, n.calls[id].rx)
    case AddUpload(id) => Bump(n, n.caches[n.calls[id].cache].storage, n.calls[id].tx, 0)
    case _ => n
  }

  /** A step of AddUsers, DelUsers, UpdateUser or CommitUserTrafficSlice. */
  function AdminStep(n: Node, a: Action): Node
    requires !OfCallback(a) && AdminEnabled(n, a)
  {
    match a
    case AddUser(uuid, uid) =>
      n.(uidMap := n.uidMap[uuid := uid], cacheOf := n.cacheOf - {uuid}, auth := n.auth[uuid := uid])
    case AddLimit(uuid) => n.(revoked := n.revoked + [false], limitOf := n.limitOf[uuid := |n.revoked|])
    case DeleteLimit(uuid) => n.(revoked := n.revoked[n.limitOf[uuid] := true], limitOf := n.limitOf - {uuid})
    case BeginDelete(uuids) => n.(admin := Deleting(uuids, [], Next))
    case RemoveAuth => n.(auth := n.auth - {n.admin.todo[0]}, admin := n.admin.(phase := Unauthorised))
    case SetRevoked =>
      var u := n.admin.todo[0];
      n.(revoked := if u in n.limitOf then n.revoked[n.limitOf[u] := true] else n.revoked,
         admin := n.admin.(phase := Phase.Revoked))
    case LockCache => n.(cacheMu := Administrator, admin := n.admin.(phase := Settling))
    case Barrier => n.(admin := n.admin.(phase := Settled))
    case Unmap =>
      n.(cacheOf := n.cacheOf - {n.admin.todo[0]}, cacheMu := Nobody,
         admin := Deleting(n.admin.todo[1..], n.admin.done + [n.admin.todo[0]], Next))
    case Prune => Retire(n, set u | u in n.admin.done).(admin := Free)
    case Commit(uuid, up, down) =>
      var k := n.counterOf[uuid];
      var s := n.storages[k];
      Retire(n.(storages := n.storages[k := s.(up := Minus(s.up, up), down := Minus(s.down, down))]), {uuid})
  }

  /** A node that has just been started: the listed users are authorised, no callback has come yet. */
  predicate Initial(n: Node) {
    && n.calls == map[] && n.caches == [] && n.cacheOf == map[] && n.storages == [] && n.counterOf == map[]
    && n.cacheMu == Nobody && n.admin == Free
    && n.uidMap == n.auth && n.limitOf.Keys == n.auth.Keys
    && (forall u :: u in n.limitOf ==> n.limitOf[u] < |n.revoked| && !n.revoked[n.limitOf[u]])
    && (forall u, v :: u in n.limitOf && v in n.limitOf && n.limitOf[u] == n.limitOf[v] ==> u == v)
    && forall u :: u in n.auth ==> 0 < n.auth[u]
  }

  // ---- the invariant ----

  /** Indices are in range, and an object belongs to one UUID. */
  predicate ObjectsOk(n: Node) {
    LimitObjectsOk(n.revoked, n.limitOf) && CacheObjectsOk(n.caches, n.cacheOf)
    && CounterObjectsOk(n.storages, n.counterOf) && EntriesOk(n.caches, n.revoked, n.storages)
  }

  predicate LimitObjectsOk(revoked: seq<bool>, limitOf: map<string, nat>) {
    && (forall u :: u in limitOf ==> limitOf[u] < |revoked|)
    && (forall u, v :: u in limitOf && v in limitOf && limitOf[u] == limitOf[v] ==> u == v)
  }

  predicate CacheObjectsOk(caches: seq<Cache>, cacheOf: map<string, nat>) {
    forall u :: u in cacheOf ==> cacheOf[u] < |caches| && caches[cacheOf[u]].uuid == u
  }

  predicate CounterObjectsOk(storages: seq<Storage>, counterOf: map<string, nat>) {
    forall u :: u in counterOf ==> counterOf[u] < |storages| && storages[counterOf[u]].uuid == u
  }

  predicate EntriesOk(caches: seq<Cache>, revoked: seq<bool>, storages: seq<Storage>) {
    forall i :: 0 <= i < |caches| ==>
      && caches[i].limit < |revoked| && caches[i].storage < |storages|
      && storages[caches[i].storage].uuid == caches[i].uuid
  }

  /** A limit that is not revoked belongs to an authorised user, or to one whose deletion has not
      reached the Revoked flag. */
  predicate LimitsOk(n: Node) { LiveLimitsOk(n.revoked, n.limitOf, n.uidMap, n.auth, n.admin) }

  predicate LiveLimitsOk(revoked: seq<bool>, limitOf: map<string, nat>, uidMap: map<string, int>,
                         auth: map<string, int>, admin: Admin) {
    forall u :: u in limitOf && limitOf[u] < |revoked| && !revoked[limitOf[u]] ==>
      u in uidMap && (u in auth || (InProgress(admin, u) && admin.phase == Unauthorised))
  }

  /** A cache entry with a live limit is the mapped one and counts into the mapped counter. */
  predicate CachesOk(n: Node) { LiveCachesOk(n.caches, n.revoked, n.cacheOf, n.limitOf, n.counterOf) }

  predicate LiveCachesOk(caches: seq<Cache>, revoked: seq<bool>, cacheOf: map<string, nat>, limitOf: map<string, nat>,
                         counterOf: map<string, nat>) {
    forall i :: 0 <= i < |caches| && caches[i].limit < |revoked| && !revoked[caches[i].limit] ==>
      var c := caches[i];
      && c.uuid in cacheOf && cacheOf[c.uuid] == i
      && c.uuid in limitOf && limitOf[c.uuid] == c.limit
      && c.uuid in counterOf && counterOf[c.uuid] == c.storage
  }

  /** A call that is about to count does so for a user who is authorised, or whose deletion has not
      passed its barrier, into a counter that will be reported. */
  predicate CountingOk(n: Node, c: Call) {
    Counting(c) ==>
      && c.cache < |n.caches|
      && var e := n.caches[c.cache];
         && (e.uuid in n.auth || (BeingDeleted(n, e.uuid) && n.admin.phase != Settled))
         && e.uuid in n.cacheOf && n.cacheOf[e.uuid] == c.cache
         && e.uuid in n.counterOf && n.counterOf[e.uuid] == e.storage
         && e.uuid in n.uidMap
  }

  /** The user is authorised, or its deletion still has to take cacheMu. */
  predicate StillDeletable(n: Node, u: string) {
    u in n.auth || (BeingDeleted(n, u) && n.admin.phase in {Unauthorised, Phase.Revoked})
  }

  /** A call that has seen a live limit still finds it, or finds it revoked, and keeps its counter. */
  predicate AdmissionOk(n: Node, c: Call) {
    && (Admitted(c) ==>
          && c.limit < |n.revoked| && c.uuid !in n.cacheOf
          && (n.revoked[c.limit] || (c.uuid in n.limitOf && n.limitOf[c.uuid] == c.limit))
          && StillDeletable(n, c.uuid))
    && (c.Holding? ==>
          && c.storage < |n.storages| && n.storages[c.storage].uuid == c.uuid
          && c.uuid in n.counterOf && n.counterOf[c.uuid] == c.storage)
  }

  predicate CallOk(n: Node, id: nat, c: Call) {
    && (InCacheMu(c) <==> n.cacheMu == Callback(id))
    && (OnCache(c) ==> c.cache < |n.caches|)
    && AdmissionOk(n, c)
    && CountingOk(n, c)
  }

  predicate CallsOk(n: Node) {
    && (n.cacheMu.Callback? ==> n.cacheMu.id in n.calls)
    && forall id :: id in n.calls ==> CallOk(n, id, n.calls[id])
  }

  predicate AdminOk(n: Node) { PhaseOk(n.admin, n.cacheMu == Administrator, n.auth) }

  predicate PhaseOk(admin: Admin, hasCacheMu: bool, auth: map<string, int>) {
    && (admin.Deleting? && admin.phase in {Settling, Settled} <==> hasCacheMu)
    && (admin.Deleting? && admin.phase != Next ==> admin.todo != [] && admin.todo[0] !in auth)
    && (admin.Deleting? ==> forall u :: u in admin.done ==> u !in auth)
  }

  /** The index: authorised users and retired users with unreported bytes, and nobody else except
      users whose deletion is still to be pruned. */
  predicate IndexOk(n: Node) { KnownUsersOk(n.auth, n.uidMap, n.storages, n.counterOf, n.admin) }

  predicate KnownUsersOk(auth: map<string, int>, uidMap: map<string, int>, storages: seq<Storage>,
                         counterOf: map<string, nat>, admin: Admin) {
    && auth.Keys <= uidMap.Keys
    && (forall u :: u in uidMap ==> 0 < uidMap[u])
    && (forall u :: u in counterOf && HasBytes(storages, counterOf, u) ==> u in uidMap)
    && (forall u :: u in uidMap ==>
          u in auth || HasBytes(storages, counterOf, u) || InProgress(admin, u) || (admin.Deleting? && u in admin.done))
  }

  predicate Inv(n: Node) {
    ObjectsOk(n) && LimitsOk(n) && CachesOk(n) && CallsOk(n) && AdminOk(n) && IndexOk(n)
  }

  // ---- every step keeps it ----

  lemma InitialIsInv(n: Node)
    requires Initial(n)
    ensures Inv(n)
  {
  }

  /** A step that only moves one call, and perhaps takes or releases cacheMu for it. */
  lemma CallMoves(n: Node, m: Node, id: nat)
    requires Inv(n) && m == n.(calls := m.calls, cacheMu := m.cacheMu)
    requires m.calls - {id} == n.calls - {id}
    requires m.cacheMu == n.cacheMu || (n.cacheMu == Nobody && m.cacheMu == Callback(id))
          || (n.cacheMu == Callback(id) && m.cacheMu == Nobody)
    requires if id in m.calls then CallOk(m, id, m.calls[id]) else m.cacheMu != Callback(id)
    ensures Inv(m)
  {
    assert ObjectsOk(m) && LimitsOk(m) && CachesOk(m) && AdminOk(m) && IndexOk(m);
    if m.cacheMu.Callback? && m.cacheMu.id != id {
      assert m.cacheMu.id in n.calls - {id};
    }
    forall j | j in m.calls
      ensures CallOk(m, j, m.calls[j])
    {
      if j != id {
        assert j in m.calls - {id} && j in n.calls && n.calls[j] == m.calls[j];
        assert CallOk(n, j, n.calls[j]);
      }
    }
  }

  lemma EnterKeeps(n: Node, a: Action)
    requires Inv(n) && Enabled(n, a) && a.Enter?
    ensures Inv(Step(n, a))
  {
    CallMoves(n, Step(n, a), a.id);
  }

  lemma FastPathKeeps(n: Node, id: nat)
    requires Inv(n) && Enabled(n, FastPath(id))
    ensures Inv(Step(n, FastPath(id)))
  {
    assert CallOk(n, id, n.calls[id]);
    CallMoves(n, Step(n, FastPath(id)), id);
  }

  lemma ReadLockKeeps(n: Node, id: nat)
    requires Inv(n) && Enabled(n, ReadLock(id))
    ensures Inv(Step(n, ReadLock(id)))
  {
    assert CallOk(n, id, n.calls[id]);
    CallMoves(n, Step(n, ReadLock(id)), id);
  }

  lemma OverLimitKeeps(n: Node, id: nat)
    requires Inv(n) && Enabled(n, OverLimit(id))
    ensures Inv(Step(n, OverLimit(id)))
  {
    assert CallOk(n, id, n.calls[id]);
    CallMoves(n, Step(n, OverLimit(id)), id);
  }

  lemma TakeCacheMuKeeps(n: Node, id: nat)
    requires Inv(n) && Enabled(n, TakeCacheMu(id))
    ensures Inv(Step(n, TakeCacheMu(id)))
  {
    assert CallOk(n, id, n.calls[id]);
    CallMoves(n, Step(n, TakeCacheMu(id)), id);
  }

  lemma SecondLookKeeps(n: Node, id: nat)
    requires Inv(n) && CanLookAgain(n, id)
    ensures Inv(Step(n, SecondLook(id)))
  {
    assert CallOk(n, id, n.calls[id]);
    CallMoves(n, Step(n, SecondLook(id)), id);
  }

  /** A live limit is that of a user who may still be counted, into the mapped counter. */
  lemma LiveLimitMayCount(n: Node, c: Call)
    requires ObjectsOk(n) && LimitsOk(n) && CachesOk(n) && AdminOk(n)
    requires c.Passed? && c.cache < |n.caches| && n.caches[c.cache].limit < |n.revoked|
             && !n.revoked[n.caches[c.cache].limit]
    ensures CountingOk(n, c)
  {
  }

  /** Passing the check under the read lock: the limit is live, so the entry is the mapped one. */
  lemma CheckKeeps(n: Node, id: nat)
    requires Inv(n) && Enabled(n, CheckRevoked(id))
    ensures Inv(Step(n, CheckRevoked(id)))
  {
    var c := n.calls[id];
    if !n.revoked[n.caches[c.cache].limit] {
      LiveLimitMayCount(n, Passed(c.cache, c.tx, c.rx));
    }
    CheckedCallMoves(n, id, After(n, CheckRevoked(id)));
  }

  lemma CheckedCallMoves(n: Node, id: nat, o: Outcome)
    requires Inv(n) && id in n.calls && n.calls[id].Reading?
    requires o.Becomes? ==> o.call.Passed? && o.call.cache < |n.caches| && CountingOk(n, o.call)
    ensures Inv(n.(calls := Put(n.calls, id, o)))
  {
    assert CallOk(n, id, n.calls[id]);
    CallMoves(n, n.(calls := Put(n.calls, id, o)), id);
  }

  // ---- administration ----

  /** Administration other than the pruning of counters. */
  predicate PrunesNothing(a: Action) { !OfCallback(a) && !a.Prune? && !a.Commit? }

  /** cacheMu is taken when nobody is between the limit check and the store. */
  lemma AdministrationKeepsAdmission(n: Node, a: Action, id: nat)
    requires Inv(n) && PrunesNothing(a) && AdminEnabled(n, a) && id in n.calls
    ensures AdmissionOk(AdminStep(n, a), n.calls[id])
  {
    assert CallOk(n, id, n.calls[id]);
  }

  /** The barrier waits for the readers of the mapped entry, and every counting call is one. */
  lemma AdministrationKeepsCounting(n: Node, a: Action, id: nat)
    requires Inv(n) && PrunesNothing(a) && AdminEnabled(n, a) && id in n.calls
    ensures CountingOk(AdminStep(n, a), n.calls[id])
  {
    assert CallOk(n, id, n.calls[id]);
  }

  lemma AdministrationKeepsCalls(n: Node, a: Action)
    requires Inv(n) && PrunesNothing(a) && AdminEnabled(n, a)
    ensures CallsOk(AdminStep(n, a))
  {
    var m := AdminStep(n, a);
    assert m.calls == n.calls && m.caches == n.caches;
    forall id | id in n.calls
      ensures CallOk(m, id, n.calls[id])
    {
      assert CallOk(n, id, n.calls[id]);
      AdministrationKeepsAdmission(n, a, id);
      AdministrationKeepsCounting(n, a, id);
    }
  }

  lemma AdministrationKeepsObjects(n: Node, a: Action)
    requires Inv(n) && PrunesNothing(a) && AdminEnabled(n, a)
    ensures ObjectsOk(AdminStep(n, a))
  {
  }

  lemma AdministrationKeepsLimits(n: Node, a: Action)
    requires Inv(n) && PrunesNothing(a) && AdminEnabled(n, a)
    ensures LimitsOk(AdminStep(n, a))
  {
  }

  lemma AdministrationKeepsCaches(n: Node, a: Action)
    requires ObjectsOk(n) && LimitsOk(n) && CachesOk(n) && AdminOk(n) && PrunesNothing(a) && AdminEnabled(n, a)
    ensures CachesOk(AdminStep(n, a))
  {
  }

  lemma AdministrationKeepsPhase(n: Node, a: Action)
    requires Inv(n) && PrunesNothing(a) && AdminEnabled(n, a)
    ensures AdminOk(AdminStep(n, a))
  {
  }

  lemma AdministrationKeepsIndex(n: Node, a: Action)
    requires Inv(n) && PrunesNothing(a) && AdminEnabled(n, a)
    ensures IndexOk(AdminStep(n, a))
  {
  }

  // ---- counting and retiring ----

  /** Adding bytes to, or taking them from, one storage. */
  lemma StorageChangeKeeps(n: Node, m: Node, k: nat)
    requires Inv(n) && m == n.(storages := m.storages) && k < |n.storages| == |m.storages|
    requires forall j :: 0 <= j < |n.storages| ==>
               m.storages[j].uuid == n.storages[j].uuid && (j != k ==> m.storages[j] == n.storages[j])
    ensures ObjectsOk(m) && LimitsOk(m) && CachesOk(m) && CallsOk(m) && AdminOk(m)
    ensures forall u :: u != n.storages[k].uuid ==> (NonZero(m, u) <==> NonZero(n, u))
  {
    forall id | id in m.calls
      ensures CallOk(m, id, m.calls[id])
    {
      assert CallOk(n, id, n.calls[id]);
    }
  }

  lemma BumpKeeps(n: Node, k: nat, up: nat, down: nat)
    requires Inv(n) && k < |n.storages| && n.storages[k].uuid in n.uidMap
    ensures Inv(Bump(n, k, up, down))
  {
    StorageChangeKeeps(n, Bump(n, k, up, down), k);
  }

  /** A counting call may go on or end. */
  lemma CountingCallMoves(n: Node, id: nat, o: Outcome)
    requires Inv(n) && id in n.calls && Counting(n.calls[id])
    requires o.Ends? || (o.call.HalfDone? && o.call.cache == n.calls[id].cache)
    ensures Inv(n.(calls := Put(n.calls, id, o)))
  {
    assert CallOk(n, id, n.calls[id]);
    CallMoves(n, n.(calls := Put(n.calls, id, o)), id);
  }

  lemma CountingIsKnown(n: Node, id: nat)
    requires Inv(n) && id in n.calls && Counting(n.calls[id])
    ensures n.calls[id].cache < |n.caches|
    ensures var k := n.caches[n.calls[id].cache].storage; k < |n.storages| && n.storages[k].uuid in n.uidMap
  {
    assert CallOk(n, id, n.calls[id]);
  }

  lemma CountKeeps(n: Node, id: nat, o: Outcome, k: nat, up: nat, down: nat)
    requires Inv(n) && id in n.calls && Counting(n.calls[id])
    requires n.calls[id].cache < |n.caches| && k == n.caches[n.calls[id].cache].storage < |n.storages|
    requires o.Ends? || (o.call.HalfDone? && o.call.cache == n.calls[id].cache)
    ensures Inv(Bump(n, k, up, down).(calls := Put(n.calls, id, o)))
  {
    CountingIsKnown(n, id);
    BumpKeeps(n, k, up, down);
    CountingCallMoves(Bump(n, k, up, down), id, o);
  }

  /** The invariant, but for index entries of `uuids` that are waiting to be pruned. */
  predicate InvExcept(n: Node, uuids: set<string>) {
    && ObjectsOk(n) && LimitsOk(n) && CachesOk(n) && CallsOk(n)
    && n.auth.Keys <= n.uidMap.Keys
    && (forall u :: u in n.uidMap ==> 0 < n.uidMap[u])
    && (forall u :: u in n.counterOf && NonZero(n, u) ==> u in n.uidMap)
    && (forall u :: u in n.uidMap ==> u in n.auth || NonZero(n, u) || u in uuids)
  }

  /** Only quiescent, unauthorised, zero counters are discarded: no live limit, no counting call. */
  lemma RetireKeeps(n: Node, uuids: set<string>)
    requires InvExcept(n, uuids) && (n.admin.Free? || (n.admin.Deleting? && n.admin.phase == Next))
    requires n.cacheMu != Administrator
    ensures Inv(Retire(n, uuids).(admin := Free))
  {
    var r := Retire(n, uuids).(admin := Free);
    forall u | u in r.counterOf
      ensures u in n.counterOf && (NonZero(r, u) <==> NonZero(n, u))
    {
    }
    RetireKeepsCalls(n, uuids);
    RetireKeepsCaches(n, uuids);
  }

  lemma RetireKeepsCaches(n: Node, uuids: set<string>)
    requires ObjectsOk(n) && LimitsOk(n) && CachesOk(n)
             && (n.admin.Free? || (n.admin.Deleting? && n.admin.phase == Next))
    ensures var r := Retire(n, uuids).(admin := Free); ObjectsOk(r) && LimitsOk(r) && CachesOk(r)
  {
  }

  lemma RetireKeepsCalls(n: Node, uuids: set<string>)
    requires InvExcept(n, uuids) && (n.admin.Free? || (n.admin.Deleting? && n.admin.phase == Next))
    ensures CallsOk(Retire(n, uuids).(admin := Free))
  {
    var r := Retire(n, uuids).(admin := Free);
    forall id | id in n.calls
      ensures CallOk(r, id, n.calls[id])
    {
      assert CallOk(n, id, n.calls[id]);
    }
  }

  lemma PruneKeeps(n: Node)
    requires Inv(n) && Enabled(n, Prune)
    ensures Inv(Step(n, Prune))
  {
    RetireKeeps(n, set u | u in n.admin.done);
  }

  lemma CommitKeeps(n: Node, uuid: string, up: nat, down: nat)
    requires Inv(n) && Enabled(n, Commit(uuid, up, down))
    ensures Inv(Step(n, Commit(uuid, up, down)))
  {
    var k := n.counterOf[uuid];
    var s := n.storages[k];
    var m := n.(storages := n.storages[k := s.(up := Minus(s.up, up), down := Minus(s.down, down))]);
    StorageChangeKeeps(n, m, k);
    assert NonZero(m, uuid) ==> NonZero(n, uuid);
    RetireKeeps(m, {uuid});
    assert Retire(m, {uuid}).(admin := Free) == Retire(m, {uuid});
  }

  // ---- creating a cache entry ----

  lemma NewCounterKeepsCalls(n: Node, u: string)
    requires Inv(n) && u !in n.counterOf
    ensures CallsOk(WithCounter(n, u))
  {
    var m := WithCounter(n, u);
    forall id | id in n.calls
      ensures CallOk(m, id, n.calls[id])
    {
      assert CallOk(n, id, n.calls[id]);
    }
  }

  lemma NewCounterKeepsObjects(n: Node, u: string)
    requires Inv(n) && u !in n.counterOf
    ensures ObjectsOk(WithCounter(n, u)) && CachesOk(WithCounter(n, u))
  {
  }

  lemma NewCounterKeeps(n: Node, u: string)
    requires Inv(n) && u !in n.counterOf
    ensures Inv(WithCounter(n, u))
  {
    var m := WithCounter(n, u);
    NewCounterKeepsCalls(n, u);
    NewCounterKeepsObjects(n, u);
    forall v ensures HasBytes(m.storages, m.counterOf, v) <==> HasBytes(n.storages, n.counterOf, v) {}
    assert IndexOk(m);
  }

  /** The call takes the mapped counter. */
  lemma HoldKeeps(n: Node, id: nat)
    requires Inv(n) && id in n.calls && n.calls[id].Checked? && n.calls[id].uuid in n.counterOf
    ensures Inv(Step(n, GetCounter(id)))
  {
    assert CallOk(n, id, n.calls[id]);
    CallMoves(n, Step(n, GetCounter(id)), id);
  }

  lemma GetCounterKeeps(n: Node, id: nat)
    requires Inv(n) && id in n.calls && n.calls[id].Checked?
    ensures Inv(Step(n, GetCounter(id)))
  {
    var u := n.calls[id].uuid;
    if u in n.counterOf {
      HoldKeeps(n, id);
    } else {
      NewCounterKeeps(n, u);
      HoldKeeps(WithCounter(n, u), id);
      assert Step(WithCounter(n, u), GetCounter(id)) == Step(n, GetCounter(id));
    }
  }

  lemma StoreKeepsCalls(n: Node, id: nat)
    requires Inv(n) && id in n.calls && n.calls[id].Holding?
    ensures CallsOk(Step(n, Store(id)))
  {
    var m := Step(n, Store(id));
    assert CallOk(n, id, n.calls[id]);
    forall j | j in m.calls
      ensures CallOk(m, j, m.calls[j])
    {
      assert CallOk(n, j, n.calls[j]);
    }
  }

  lemma StoreKeepsObjects(n: Node, id: nat)
    requires Inv(n) && id in n.calls && n.calls[id].Holding?
    ensures ObjectsOk(Shared(n, Store(id)))
  {
    assert CallOk(n, id, n.calls[id]);
  }

  /** cacheMu keeps the limit check and the store together, so the stored entry is the mapped one. */
  lemma StoreKeepsCaches(n: Node, id: nat)
    requires Inv(n) && id in n.calls && n.calls[id].Holding?
    ensures CachesOk(Shared(n, Store(id)))
  {
    assert CallOk(n, id, n.calls[id]);
  }

  lemma StoreKeeps(n: Node, id: nat)
    requires Inv(n) && id in n.calls && n.calls[id].Holding?
    ensures Inv(Step(n, Store(id)))
  {
    assert CallOk(n, id, n.calls[id]);
    StoreKeepsObjects(n, id);
    StoreKeepsCaches(n, id);
    StoreKeepsCalls(n, id);
  }

  lemma CallStepKeeps(n: Node, a: Action)
    requires Inv(n) && OfCallback(a) && CallEnabled(n, a)
    ensures Inv(CallStep(n, a))
  {
    if a.Enter? || a.FastPath? || a.TakeCacheMu? || a.SecondLook? || a.GetCounter? || a.Store? {
      LookupStepKeeps(n, a);
    } else {
      CountStepKeeps(n, a);
    }
  }

  lemma LookupStepKeeps(n: Node, a: Action)
    requires Inv(n) && OfCallback(a) && CallEnabled(n, a)
    requires a.Enter? || a.FastPath? || a.TakeCacheMu? || a.SecondLook? || a.GetCounter? || a.Store?
    ensures Inv(CallStep(n, a))
  {
    match a
    case Enter(_, _, _, _) => EnterKeeps(n, a);
    case FastPath(id) => FastPathKeeps(n, id);
    case TakeCacheMu(id) => TakeCacheMuKeeps(n, id);
    case SecondLook(id) => SecondLookKeeps(n, id);
    case GetCounter(id) => GetCounterKeeps(n, id);
    case Store(id) => StoreKeeps(n, id);
  }

  lemma CountStepKeeps(n: Node, a: Action)
    requires Inv(n) && OfCallback(a) && CallEnabled(n, a)
    requires a.ReadLock? || a.CheckRevoked? || a.OverLimit? || a.AddDownload? || a.AddUpload?
    ensures Inv(CallStep(n, a))
  {
    match a
    case ReadLock(id) => ReadLockKeeps(n, id);
    case CheckRevoked(id) => CheckKeeps(n, id);
    case OverLimit(id) => OverLimitKeeps(n, id);
    case AddDownload(id) => CountKeeps(n, id, After(n, a), n.caches[n.calls[id].cache].storage, 0, n.calls[id].rx);
    case AddUpload(id) => CountKeeps(n, id, After(n, a), n.caches[n.calls[id].cache].storage, n.calls[id].tx, 0);
  }

  lemma AdminStepKeeps(n: Node, a: Action)
    requires Inv(n) && !OfCallback(a) && AdminEnabled(n, a)
    ensures Inv(AdminStep(n, a))
  {
    if PrunesNothing(a) {
      AdministrationKeepsCalls(n, a);
      AdministrationKeepsObjects(n, a);
      AdministrationKeepsLimits(n, a);
      AdministrationKeepsCaches(n, a);
      AdministrationKeepsPhase(n, a);
      AdministrationKeepsIndex(n, a);
    } else if a.Prune? {
      PruneKeeps(n);
    } else {
      CommitKeeps(n, a.uuid, a.up, a.down);
    }
  }

  /** Every step of every interleaving keeps the invariant. */
  lemma StepKeeps(n: Node, a: Action)
    requires Inv(n) && Enabled(n, a)
    ensures Inv(Step(n, a))
  {
    if OfCallback(a) {
      CallStepKeeps(n, a);
    } else {
      AdminStepKeeps(n, a);
    }
  }

  // ---- runs ----

  function Exec(n: Node, acts: seq<Action>): Option<Node> {
    if acts == [] then Some(n)
    else
      var before := Exec(n, acts[..|acts| - 1]);
      if before.Some? && Enabled(before.value, acts[|acts| - 1])
      then Some(Step(before.value, acts[|acts| - 1]))
      else None
  }

  lemma {:induction false} RunsKeepInv(n: Node, acts: seq<Action>)
    requires Inv(n) && Exec(n, acts).Some?
    ensures Inv(Exec(n, acts).value)
    decreases |acts|
  {
    if acts != [] {
      RunsKeepInv(n, acts[..|acts| - 1]);
      StepKeeps(Exec(n, acts[..|acts| - 1]).value, acts[|acts| - 1]);
    }
  }

  /** The UUID whose counter a step of a callback increases. */
  function CountedBy(n: Node, a: Action): string
    requires Enabled(n, a) && (a.AddDownload? || a.AddUpload?)
  {
    n.caches[n.calls[a.id].cache].uuid
  }

  /** Nothing in the node can count for `u`: it is not authorised, all its limits are revoked, and
      no call holds a permission from before. */
  predicate Quiet(n: Node, u: string) {
    && u !in n.auth
    && (u in n.limitOf ==> n.limitOf[u] < |n.revoked| && n.revoked[n.limitOf[u]])
    && (forall i :: 0 <= i < |n.caches| && n.caches[i].uuid == u ==>
          n.caches[i].limit < |n.revoked| && n.revoked[n.caches[i].limit])
    && (forall id :: id in n.calls ==> QuietCall(n, n.calls[id], u))
  }

  predicate QuietCall(n: Node, c: Call, u: string) {
    && (Admitted(c) ==> c.uuid != u)
    && (OnCache(c) ==> c.cache < |n.caches|)
    && (Counting(c) ==> c.cache < |n.caches| && n.caches[c.cache].uuid != u)
  }

  /** From `n` to `m` no counter of `u` was created or increased. */
  predicate NothingAdded(n: Node, m: Node, u: string) {
    && |n.storages| <= |m.storages|
    && (forall k :: 0 <= k < |n.storages| ==> m.storages[k].uuid == n.storages[k].uuid)
    && (forall k :: 0 <= k < |m.storages| && m.storages[k].uuid == u ==>
          k < |n.storages| && m.storages[k].up <= n.storages[k].up && m.storages[k].down <= n.storages[k].down)
  }

  lemma UnauthorisedIsQuiet(n: Node, u: string)
    requires Inv(n) && n.admin.Free? && u !in n.auth
    ensures Quiet(n, u)
  {
    forall id | id in n.calls
      ensures QuietCall(n, n.calls[id], u)
    {
      assert CallOk(n, id, n.calls[id]);
    }
  }

  /** No step takes a revocation back or reuses a limit object; a user becomes authorised only by
      AddUser, and gets a limit only when authorised. */
  lemma PermissionsOnlyShrink(n: Node, a: Action, u: string)
    requires !OfCallback(a) && AdminEnabled(n, a) && u !in n.auth && !(a.AddUser? && a.uuid == u)
    ensures var m := AdminStep(n, a);
            && |n.revoked| <= |m.revoked| && (forall l :: 0 <= l < |n.revoked| && n.revoked[l] ==> m.revoked[l])
            && u !in m.auth && (u in m.limitOf ==> u in n.limitOf && m.limitOf[u] == n.limitOf[u])
  {
  }

  lemma AdministrationKeeps(n: Node, a: Action)
    requires !OfCallback(a) && AdminEnabled(n, a)
    ensures var m := AdminStep(n, a); m.calls == n.calls && m.caches == n.caches
  {
  }

  lemma CallbacksKeep(n: Node, a: Action)
    requires OfCallback(a) && CallEnabled(n, a)
    ensures var m := Shared(n, a); m.revoked == n.revoked && m.auth == n.auth && m.limitOf == n.limitOf
  {
  }

  /** Cache entries are never changed, and a new one comes from an admitted call. */
  lemma CachesOnlyGrow(n: Node, a: Action)
    requires OfCallback(a) && CallEnabled(n, a)
    ensures var m := Shared(n, a);
            && n.caches <= m.caches
            && (n.caches == m.caches ||
                (a.Store? && |m.caches| == |n.caches| + 1 && m.caches[|n.caches|].uuid == n.calls[a.id].uuid
                 && m.caches[|n.caches|].limit == n.calls[a.id].limit))
  {
  }

  lemma OwnCallStaysQuiet(n: Node, a: Action, u: string)
    requires ObjectsOk(n) && OfCallback(a) && CallEnabled(n, a) && Quiet(n, u) && After(n, a).Becomes?
    ensures QuietCall(Shared(n, a), After(n, a).call, u)
  {
    if a.id in n.calls {
      assert QuietCall(n, n.calls[a.id], u);
    }
  }

  lemma CallbackKeepsQuiet(n: Node, a: Action, u: string)
    requires Inv(n) && OfCallback(a) && CallEnabled(n, a) && Quiet(n, u)
    ensures Quiet(CallStep(n, a), u)
  {
    var m := CallStep(n, a);
    CallbacksKeep(n, a);
    CachesOnlyGrow(n, a);
    if a.Store? {
      assert QuietCall(n, n.calls[a.id], u);
      assert CallOk(n, a.id, n.calls[a.id]);
    }
    forall id | id in m.calls
      ensures QuietCall(m, m.calls[id], u)
    {
      if id == a.id {
        OwnCallStaysQuiet(n, a, u);
      } else {
        assert QuietCall(n, n.calls[id], u);
      }
    }
  }

  lemma AdministrationKeepsQuiet(n: Node, a: Action, u: string)
    requires !OfCallback(a) && AdminEnabled(n, a) && Quiet(n, u) && !(a.AddUser? && a.uuid == u)
    ensures Quiet(AdminStep(n, a), u)
  {
    PermissionsOnlyShrink(n, a, u);
    AdministrationKeeps(n, a);
    forall id | id in n.calls
      ensures QuietCall(AdminStep(n, a), n.calls[id], u)
    {
      assert QuietCall(n, n.calls[id], u);
    }
  }

  lemma CallbackAddsNothing(n: Node, a: Action, u: string)
    requires ObjectsOk(n) && OfCallback(a) && CallEnabled(n, a) && Quiet(n, u)
    ensures NothingAdded(n, Shared(n, a), u)
  {
    match a
    case AddDownload(id) => assert QuietCall(n, n.calls[id], u);
    case AddUpload(id) => assert QuietCall(n, n.calls[id], u);
    case GetCounter(id) => assert QuietCall(n, n.calls[id], u);
    case _ => assert Shared(n, a).storages == n.storages;
  }

  lemma AdministrationAddsNothing(n: Node, a: Action, u: string)
    requires !OfCallback(a) && AdminEnabled(n, a)
    ensures NothingAdded(n, AdminStep(n, a), u)
  {
    if !a.Commit? {
      assert AdminStep(n, a).storages == n.storages;
    }
  }

  lemma QuietStep(n: Node, a: Action, u: string)
    requires Inv(n) && Enabled(n, a) && Quiet(n, u) && !(a.AddUser? && a.uuid == u)
    ensures Quiet(Step(n, a), u) && NothingAdded(n, Step(n, a), u)
  {
    if OfCallback(a) {
      CallbackKeepsQuiet(n, a, u);
      CallbackAddsNothing(n, a, u);
    } else {
      AdministrationKeepsQuiet(n, a, u);
      AdministrationAddsNothing(n, a, u);
    }
  }

  lemma {:induction false} QuietRun(n: Node, acts: seq<Action>, u: string)
    requires Inv(n) && Quiet(n, u) && Exec(n, acts).Some?
    requires forall a :: a in acts ==> !(a.AddUser? && a.uuid == u)
    ensures Quiet(Exec(n, acts).value, u) && NothingAdded(n, Exec(n, acts).value, u)
    decreases |acts|
  {
    if acts != [] {
      var shorter, a := acts[..|acts| - 1], acts[|acts| - 1];
      assert a in acts;
      QuietRun(n, shorter, u);
      RunsKeepInv(n, shorter);
      QuietStep(Exec(n, shorter).value, a, u);
    }
  }

  lemma QuietCountsNothing(n: Node, u: string)
    requires Quiet(n, u)
    ensures forall a :: Enabled(n, a) && (a.AddDownload? || a.AddUpload?) ==> CountedBy(n, a) != u
  {
    forall a | Enabled(n, a) && (a.AddDownload? || a.AddUpload?)
      ensures CountedBy(n, a) != u
    {
      assert QuietCall(n, n.calls[a.id], u);
    }
  }

  /** Revocation barrier. Take any reachable moment at which no DelUsers is running, and a user who
      is not authorised, so every DelUsers for it has returned. However the run goes on, until
      AddUsers lists that user again, no callback, old or new, is about to count for it, and none
      of its counters, mapped or not, has grown or come into being. */
  lemma NoBytesAfterRevocation(start: Node, before: seq<Action>, acts: seq<Action>, u: string)
    requires Initial(start) && Exec(start, before).Some? && Exec(start, before).value.admin.Free?
    requires Exec(Exec(start, before).value, acts).Some? && u !in Exec(start, before).value.auth
    requires forall x :: x in acts ==> !(x.AddUser? && x.uuid == u)
    ensures var n, m := Exec(start, before).value, Exec(Exec(start, before).value, acts).value;
            && NothingAdded(n, m, u)
            && forall a :: Enabled(m, a) && (a.AddDownload? || a.AddUpload?) ==> CountedBy(m, a) != u
  {
    InitialIsInv(start);
    RunsKeepInv(start, before);
    UnauthorisedIsQuiet(Exec(start, before).value, u);
    QuietRun(Exec(start, before).value, acts, u);
    QuietCountsNothing(Exec(Exec(start, before).value, acts).value, u);
  }

  /** Quiesce. Once every user has been deleted, and with nobody added, all counters of the node are
      final but for what is committed: what a shutdown then reads cannot become stale. */
  lemma QuiescedNodeCountsNothing(start: Node, before: seq<Action>, acts: seq<Action>)
    requires Initial(start) && Exec(start, before).Some?
    requires Exec(start, before).value.admin.Free? && Exec(start, before).value.auth == map[]
    requires Exec(Exec(start, before).value, acts).Some? && forall x :: x in acts ==> !x.AddUser?
    ensures var n, m := Exec(start, before).value, Exec(Exec(start, before).value, acts).value;
            && |m.storages| == |n.storages|
            && forall k :: 0 <= k < |n.storages| ==>
                 m.storages[k].up <= n.storages[k].up && m.storages[k].down <= n.storages[k].down
  {
    var n, m := Exec(start, before).value, Exec(Exec(start, before).value, acts).value;
    NoBytesAfterRevocation(start, before, acts, "");
    if |m.storages| > 0 {
      NoBytesAfterRevocation(start, before, acts, m.storages[|m.storages| - 1].uuid);
    }
    forall k | 0 <= k < |n.storages|
      ensures m.storages[k].up <= n.storages[k].up && m.storages[k].down <= n.storages[k].down
    {
      NoBytesAfterRevocation(start, before, acts, m.storages[k].uuid);
    }
  }

  /** No byte is lost: whatever a callback counts goes into the counter that the next capture reads,
      of a user the index knows. */
  lemma EveryByteIsReportable(start: Node, acts: seq<Action>, a: Action)
    requires Initial(start) && Exec(start, acts).Some?
    requires Enabled(Exec(start, acts).value, a) && (a.AddDownload? || a.AddUpload?)
    ensures var n := Exec(start, acts).value;
            var u := CountedBy(n, a);
            u in n.counterOf && n.counterOf[u] == n.caches[n.calls[a.id].cache].storage && u in n.uidMap
  {
    InitialIsInv(start);
    RunsKeepInv(start, acts);
    var n := Exec(start, acts).value;
    assert CallOk(n, a.id, n.calls[a.id]);
  }

  /** Index exactness. Whenever the index lock is free, the index holds exactly the authorised users
      and the retired ones with unreported bytes; so a capture never meets a non-zero counter
      without a user, and nothing leaks. */
  lemma IndexIsExact(start: Node, acts: seq<Action>)
    requires Initial(start) && Exec(start, acts).Some? && Exec(start, acts).value.admin.Free?
    ensures var n := Exec(start, acts).value;
            forall u :: u in n.uidMap <==> u in n.auth || NonZero(n, u)
    ensures var n := Exec(start, acts).value;
            forall u :: NonZero(n, u) ==> u in n.uidMap && 0 < n.uidMap[u]
  {
    InitialIsInv(start);
    RunsKeepInv(start, acts);
  }
}
