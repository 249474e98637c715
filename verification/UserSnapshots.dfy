/** Synchronising the user list with the panel (node/task.go syncUsers, node/user.go
    revokeReportedUsers, api/v2board/user.go): a slow fetch races with revocations. Every critical
    section is cut at each point where another thread can observe it. `now`, `began`, `origin`,
    `revokedAt`, `served` and `published` only record what has happened. */
module UserSnapshots {
  import opened Options
  import opened UserList

  /** UserSnapshot */
  datatype Snapshot = Snapshot(users: seq<User>, etag: string)

  /** A syncUsers call up to its generation fence. `body` is None for a 304; `served` is the list the
      panel had when it answered. */
  datatype Fetch =
    | Idle
    | Asked(gen: nat, began: nat)
    | Sent(gen: nat, began: nat, etag: string)
    | Answered(gen: nat, began: nat, body: Option<Snapshot>, served: seq<User>)

  datatype RevokePhase = Fenced | Removed | Filtered
  datatype ApplyPhase = Accepted | Deleted | Added | Listed

  /** syncUsersAccess, and how far its holder is. */
  datatype Lock =
    | Unlocked
    | Revoking(ids: set<int>, rphase: RevokePhase)
    | Applying(snapshot: Snapshot, began: nat, aphase: ApplyPhase)

  datatype State = State(
    list: seq<User>,                       // the panel's list and its ETag
    etag: string,
    published: map<string, seq<User>>,     // every list the panel has had, by ETag
    generation: nat,
    userList: seq<User>,
    userEtag: string,
    auth: set<string>,                     // UUIDs the core authorises
    coreFailed: bool,                      // a DelUsers or AddUsers call has failed
    fetch: Fetch,
    lock: Lock,
    now: nat,
    origin: nat,                           // when the fetch behind userList began
    revokedAt: map<int, nat>)              // when the last revocation of a UID was complete

  datatype Action =
    | Publish(list: seq<User>, etag: string)
    | BeginFetch
    | ReadEtag
    | Serve
    | FetchFails
    | Fence
    | ApplyDelete(ok: bool)
    | ApplyAdd(ok: bool)
    | SetList
    | CommitEtag
    | RevokeBegin(ids: set<int>)
    | RevokeDelete(ok: bool)
    | RevokeFilter
    | RevokeEnd
    | Isolated                             // isolateTraffic invalidates the ETag without the lock

  predicate Enabled(s: State, a: Action) {
    match a
    case Publish(list, etag) => etag != "" ==> (etag in s.published ==> s.published[etag] == list)
    case BeginFetch => s.fetch.Idle? && s.lock.Unlocked?
    case ReadEtag => s.fetch.Asked?
    case Serve => s.fetch.Sent?
    case FetchFails => !s.fetch.Idle?
    case Fence => s.fetch.Answered? && s.lock.Unlocked?
    case ApplyDelete(_) => s.lock.Applying? && s.lock.aphase == Accepted
    case ApplyAdd(_) => s.lock.Applying? && s.lock.aphase == Deleted
    case SetList => s.lock.Applying? && s.lock.aphase == Added
    case CommitEtag => s.lock.Applying? && s.lock.aphase == Listed
    case RevokeBegin(ids) => s.lock.Unlocked? && ids != {}
    case RevokeDelete(_) => s.lock.Revoking? && s.lock.rphase == Fenced
    case RevokeFilter => s.lock.Revoking? && s.lock.rphase == Removed
    case RevokeEnd => s.lock.Revoking? && s.lock.rphase == Filtered
    case Isolated => true
  }

  /** The panel answers a conditional request (section 13.1.2 of RFC 9110); getUsers refuses an
      invalid list. */
  function Reply(s: State): Fetch
    requires s.fetch.Sent?
  {
    if s.fetch.etag != "" && s.fetch.etag == s.etag then Answered(s.fetch.gen, s.fetch.began, None, s.list)
    else if ValidUsers(s.list) then Answered(s.fetch.gen, s.fetch.began, Some(Snapshot(s.list, s.etag)), s.list)
    else Idle
  }

  /** Lines 125 to 136 of syncUsers. */
  function PassFence(s: State): State
    requires Enabled(s, Fence)
  {
    if s.fetch.gen != s.generation then s.(fetch := Idle, userEtag := "")
    else if s.fetch.body.None? then s.(fetch := Idle)
    else s.(fetch := Idle, lock := Applying(s.fetch.body.value, s.fetch.began, Accepted))
  }

  function Gone(s: State): set<string>
    requires s.lock.Applying?
  {
    Uuids(s.userList) - Uuids(s.lock.snapshot.users)
  }

  function New(s: State): set<string>
    requires s.lock.Applying?
  {
    Uuids(s.lock.snapshot.users) - Uuids(s.userList)
  }

  function Do(s: State, a: Action): State
    requires Enabled(s, a)
  {
    match a
    case Publish(list, etag) =>
      s.(list := list, etag := etag, published := if etag == "" then s.published else s.published[etag := list])
    case BeginFetch => s.(fetch := Asked(s.generation, s.now))
    case ReadEtag => s.(fetch := Sent(s.fetch.gen, s.fetch.began, s.userEtag))
    case Serve => s.(fetch := Reply(s))
    case FetchFails => s.(fetch := Idle)
    case Fence => PassFence(s)
    case ApplyDelete(ok) =>
      if ok then s.(auth := s.auth - Gone(s), lock := s.lock.(aphase := Deleted))
      else s.(coreFailed := true, lock := Unlocked)
    case ApplyAdd(ok) =>
      if ok then s.(auth := s.auth + New(s), lock := s.lock.(aphase := Added))
      else s.(coreFailed := true, lock := Unlocked)
    case SetList => s.(userList := s.lock.snapshot.users, origin := s.lock.began, lock := s.lock.(aphase := Listed))
    case CommitEtag => s.(userEtag := s.lock.snapshot.etag, lock := Unlocked)
    case RevokeBegin(ids) => s.(generation := s.generation + 1, lock := Revoking(ids, Fenced))
    case RevokeDelete(ok) =>
      if ok then s.(auth := s.auth - (Uuids(s.userList) - Uuids(Kept(s.userList, s.lock.ids))),
        lock := s.lock.(rphase := Removed))
      else s.(coreFailed := true, lock := Unlocked)
    case RevokeFilter => s.(userList := Kept(s.userList, s.lock.ids), lock := s.lock.(rphase := Filtered))
    case RevokeEnd =>
      s.(userEtag := "", lock := Unlocked,
         revokedAt := map x | x in s.revokedAt.Keys + s.lock.ids :: if x in s.lock.ids then s.now else s.revokedAt[x])
    case Isolated => s.(userEtag := "")
  }

  function Step(s: State, a: Action): State
    requires Enabled(s, a)
  {
    Do(s, a).(now := s.now + 1)
  }

  /** The controller has just been started with the list it fetched. */
  predicate Initial(s: State) {
    && s.fetch.Idle? && s.lock.Unlocked? && s.revokedAt == map[] && !s.coreFailed
    && ValidUsers(s.userList) && s.auth == Uuids(s.userList)
    && Carries(s.published, s.userEtag, s.userList) && Carries(s.published, s.etag, s.list)
    && s.origin <= s.now
  }

  /** The ETag, unless empty, is one under which the panel published exactly this list. */
  predicate Carries(published: map<string, seq<User>>, etag: string, users: seq<User>) {
    etag != "" ==> etag in published && published[etag] == users
  }

  // ---- the invariant ----

  predicate RevokedBefore(revokedAt: map<int, nat>, t: nat) { forall x :: x in revokedAt ==> revokedAt[x] < t }

  predicate PanelOk(s: State) {
    Carries(s.published, s.etag, s.list) && RevokedBefore(s.revokedAt, s.now)
  }

  predicate SnapshotOk(published: map<string, seq<User>>, snapshot: Snapshot) {
    ValidUsers(snapshot.users) && Carries(published, snapshot.etag, snapshot.users)
  }

  /** While the fetch can still be accepted, the list it may confirm is the applied one. */
  predicate FetchOk(s: State) {
    var f := s.fetch;
    !f.Idle? ==>
      && f.gen <= s.generation && !s.lock.Applying?
      && (f.gen == s.generation ==> !s.lock.Revoking? && RevokedBefore(s.revokedAt, f.began))
      && (f.gen == s.generation && f.Sent? ==> Carries(s.published, f.etag, s.userList))
      && (f.Answered? ==>
            match f.body
            case None => f.gen == s.generation ==> f.served == s.userList
            case Some(snapshot) => SnapshotOk(s.published, snapshot) && snapshot.users == f.served)
  }

  predicate ListOk(s: State) {
    && ValidUsers(s.userList)
    && (forall u :: u in s.userList && u.id in s.revokedAt ==> s.revokedAt[u.id] < s.origin)
  }

  predicate LockOk(s: State) {
    match s.lock
    case Unlocked => Carries(s.published, s.userEtag, s.userList)
    case Revoking(ids, phase) =>
      if phase == Filtered then forall u :: u in s.userList ==> u.id !in ids
      else Carries(s.published, s.userEtag, s.userList)
    case Applying(snapshot, began, phase) =>
      && SnapshotOk(s.published, snapshot) && RevokedBefore(s.revokedAt, began)
      && if phase == Listed then snapshot.users == s.userList
         else Carries(s.published, s.userEtag, s.userList)
  }

  /** The UUIDs the core should authorise, given how far the holder of the lock is. */
  function Target(lock: Lock, users: seq<User>): set<string> {
    match lock
    case Unlocked => Uuids(users)
    case Revoking(ids, phase) => if phase == Removed then Uuids(Kept(users, ids)) else Uuids(users)
    case Applying(snapshot, _, phase) =>
      match phase
      case Accepted => Uuids(users)
      case Deleted => Uuids(users) * Uuids(snapshot.users)
      case Added => Uuids(snapshot.users)
      case Listed => Uuids(snapshot.users)
  }

  predicate AuthOk(auth: set<string>, failed: bool, target: set<string>) {
    auth <= target && (!failed ==> auth == target)
  }

  predicate Inv(s: State) {
    PanelOk(s) && FetchOk(s) && ListOk(s) && LockOk(s) && AuthOk(s.auth, s.coreFailed, Target(s.lock, s.userList))
  }

  lemma KeptUuids(users: seq<User>, ids: set<int>)
    ensures Uuids(Kept(users, ids)) <= Uuids(users)
  {
    KeptOrDropped(users, ids);
  }

  lemma DeleteReachesTarget(auth: set<string>, was: set<string>, users: set<string>)
    requires auth <= was
    ensures auth - (was - users) <= was * users <= was && (auth == was ==> auth - (was - users) == was * users)
  {
  }

  lemma AddReachesTarget(auth: set<string>, was: set<string>, users: set<string>)
    requires auth <= was * users
    ensures auth + (users - was) <= users && (auth == was * users ==> auth + (users - was) == users)
    ensures auth <= was
  {
  }

  lemma AuthKeeps(s: State, a: Action)
    requires Inv(s) && Enabled(s, a)
    ensures var t := Step(s, a); AuthOk(t.auth, t.coreFailed, Target(t.lock, t.userList))
  {
    match a
    case RevokeDelete(_) => KeptUuids(s.userList, s.lock.ids);
    case ApplyDelete(_) => DeleteReachesTarget(s.auth, Uuids(s.userList), Uuids(s.lock.snapshot.users));
    case ApplyAdd(_) => AddReachesTarget(s.auth, Uuids(s.userList), Uuids(s.lock.snapshot.users));
    case RevokeFilter =>
    case SetList =>
    case _ =>
  }

  lemma PanelKeeps(s: State, a: Action)
    requires PanelOk(s) && Enabled(s, a)
    ensures PanelOk(Step(s, a))
  {
  }

  lemma FetchKeeps(s: State, a: Action)
    requires Inv(s) && Enabled(s, a)
    ensures FetchOk(Step(s, a))
  {
  }

  lemma ListKeeps(s: State, a: Action)
    requires Inv(s) && Enabled(s, a)
    ensures ListOk(Step(s, a))
  {
    if a.RevokeFilter? {
      KeptIsUnique(s.userList, s.lock.ids);
      KeptOrDropped(s.userList, s.lock.ids);
    }
  }

  lemma LockKeeps(s: State, a: Action)
    requires Inv(s) && Enabled(s, a)
    ensures LockOk(Step(s, a))
  {
    match a
    case RevokeFilter => KeptOrDropped(s.userList, s.lock.ids);
    case Fence =>
    case RevokeEnd =>
    case CommitEtag =>
    case _ =>
  }

  lemma StepKeeps(s: State, a: Action)
    requires Inv(s) && Enabled(s, a)
    ensures Inv(Step(s, a))
  {
    AuthKeeps(s, a);
    PanelKeeps(s, a);
    FetchKeeps(s, a);
    ListKeeps(s, a);
    LockKeeps(s, a);
  }

  // ---- runs ----

  function Exec(s: State, acts: seq<Action>): (r: Option<State>) {
    if acts == [] then Some(s)
    else
      var before := Exec(s, acts[..|acts| - 1]);
      if before.Some? && Enabled(before.value, acts[|acts| - 1])
      then Some(Step(before.value, acts[|acts| - 1]))
      else None
  }

  lemma {:induction false} RunsKeepInv(s: State, acts: seq<Action>)
    requires Inv(s) && Exec(s, acts).Some?
    ensures Inv(Exec(s, acts).value)
    decreases |acts|
  {
    if acts != [] {
      RunsKeepInv(s, acts[..|acts| - 1]);
      StepKeeps(Exec(s, acts[..|acts| - 1]).value, acts[|acts| - 1]);
    }
  }

  /** ETag coherence: whenever the sync lock is free, a non-empty ETag is that of the applied list;
      and while the core has not refused a call, exactly that list is authorised. */
  lemma EtagMeansApplied(start: State, acts: seq<Action>)
    requires Initial(start) && Exec(start, acts).Some? && Exec(start, acts).value.lock.Unlocked?
    ensures var s := Exec(start, acts).value;
            && (s.userEtag != "" ==> s.userEtag in s.published && s.published[s.userEtag] == s.userList)
            && s.auth <= Uuids(s.userList) && (!s.coreFailed ==> s.auth == Uuids(s.userList))
  {
    RunsKeepInv(start, acts);
  }

  /** An accepted answer is fresh, whether it is a list or a 304: what is applied, or already was, is
      the list the panel had when it answered, and the fetch began after every revocation. */
  lemma AcceptedAnswerIsFresh(start: State, acts: seq<Action>)
    requires Initial(start) && Exec(start, acts).Some? && Enabled(Exec(start, acts).value, Fence)
    requires var s := Exec(start, acts).value; s.fetch.gen == s.generation
    ensures var s := Exec(start, acts).value;
            && (forall x :: x in s.revokedAt ==> s.revokedAt[x] < s.fetch.began)
            && s.fetch.served == if s.fetch.body.None? then s.userList else s.fetch.body.value.users
  {
    RunsKeepInv(start, acts);
  }

  /** Every fetch in progress began before `t`, and the one behind the applied list no later. */
  predicate BegunBefore(s: State, t: nat) {
    && (!s.fetch.Idle? ==> s.fetch.began < t)
    && (s.lock.Applying? ==> s.lock.began < t)
    && s.origin <= t
  }

  predicate RevokedSince(s: State, ids: set<int>, t: nat) {
    t <= s.now && forall x :: x in ids ==> x in s.revokedAt && t <= s.revokedAt[x]
  }

  lemma BegunBeforeStep(s: State, a: Action, t: nat)
    requires Enabled(s, a) && BegunBefore(s, t) && (a.BeginFetch? ==> s.now < t)
    ensures BegunBefore(Step(s, a), t)
  {
  }

  lemma RevokedSinceStep(s: State, a: Action, ids: set<int>, t: nat)
    requires Enabled(s, a) && RevokedSince(s, ids, t)
    ensures RevokedSince(Step(s, a), ids, t)
  {
    if !a.RevokeEnd? {
      assert Step(s, a).revokedAt == s.revokedAt;
    }
  }

  lemma {:induction false} NoLaterFetch(s: State, acts: seq<Action>, ids: set<int>, t: nat)
    requires Exec(s, acts).Some? && BegunBefore(s, t) && RevokedSince(s, ids, t) && BeginFetch !in acts
    ensures BegunBefore(Exec(s, acts).value, t) && RevokedSince(Exec(s, acts).value, ids, t)
    decreases |acts|
  {
    if acts != [] {
      var shorter, a := acts[..|acts| - 1], acts[|acts| - 1];
      assert a in acts;
      NoLaterFetch(s, shorter, ids, t);
      BegunBeforeStep(Exec(s, shorter).value, a, t);
      RevokedSinceStep(Exec(s, shorter).value, a, ids, t);
    }
  }

  lemma {:induction false} BeginningsArePast(start: State, acts: seq<Action>)
    requires Initial(start) && Exec(start, acts).Some?
    ensures BegunBefore(Exec(start, acts).value, Exec(start, acts).value.now)
    decreases |acts|
  {
    if acts != [] {
      var s := Exec(start, acts[..|acts| - 1]).value;
      BeginningsArePast(start, acts[..|acts| - 1]);
      BegunBeforeStep(s, acts[|acts| - 1], s.now + 1);
    }
  }

  /** Then no snapshot is being applied, and none of the users is listed or authorised. */
  predicate AreOut(s: State, ids: set<int>) {
    && !s.lock.Applying?
    && (forall u :: u in s.userList ==> u.id !in ids)
    && (forall x :: x in s.auth ==> exists u :: u in s.userList && u.uuid == x && u.id !in ids)
  }

  lemma SomeMember<T>(s: set<T>) returns (y: T)
    requires s != {}
    ensures y in s
  {
    y :| y in s;
  }

  lemma RevokedAreOut(s: State, ids: set<int>, t: nat)
    requires Inv(s) && BegunBefore(s, t) && RevokedSince(s, ids, t) && ids != {}
    ensures AreOut(s, ids)
  {
    var y := SomeMember(ids);
    assert t <= s.revokedAt[y];
    if s.lock.Revoking? {
      KeptUuids(s.userList, s.lock.ids);
    }
    assert s.auth <= Uuids(s.userList);
  }

  lemma LockStep(s: State, a: Action)
    requires Enabled(s, a) && (s.lock.Revoking? ==> s.lock.ids != {})
    ensures Step(s, a).lock.Revoking? ==> Step(s, a).lock.ids != {}
  {
  }

  lemma {:induction false} LocksNameUsers(start: State, acts: seq<Action>)
    requires Initial(start) && Exec(start, acts).Some?
    ensures Exec(start, acts).value.lock.Revoking? ==> Exec(start, acts).value.lock.ids != {}
    decreases |acts|
  {
    if acts != [] {
      LocksNameUsers(start, acts[..|acts| - 1]);
      LockStep(Exec(start, acts[..|acts| - 1]).value, acts[|acts| - 1]);
    }
  }

  /** Snapshot fence. Once a revocation is complete, no snapshot is applied and none of its users is
      listed or authorised again before a fetch that begins afterwards, whatever answers are still on
      their way. */
  lemma RevokedReturnsOnlyByLaterFetch(start: State, before: seq<Action>, acts: seq<Action>)
    requires Initial(start) && Exec(start, before).Some? && Enabled(Exec(start, before).value, RevokeEnd)
    requires Exec(Step(Exec(start, before).value, RevokeEnd), acts).Some? && BeginFetch !in acts
    ensures AreOut(Exec(Step(Exec(start, before).value, RevokeEnd), acts).value, Exec(start, before).value.lock.ids)
  {
    var s := Exec(start, before).value;
    RunsKeepInv(start, before);
    BeginningsArePast(start, before);
    LocksNameUsers(start, before);
    StepKeeps(s, RevokeEnd);
    BegunBeforeStep(s, RevokeEnd, s.now);
    NoLaterFetch(Step(s, RevokeEnd), acts, s.lock.ids, s.now);
    RunsKeepInv(Step(s, RevokeEnd), acts);
    RevokedAreOut(Exec(Step(s, RevokeEnd), acts).value, s.lock.ids, s.now);
  }

  // ---- an accepted list is applied ----

  /** No call into the core is refused. */
  predicate NothingRefused(acts: seq<Action>) {
    forall a :: a in acts ==> a != ApplyDelete(false) && a != ApplyAdd(false)
  }

  /** How far the holder of the lock is with this snapshot. */
  predicate IsApplying(s: State, snapshot: Snapshot, fetched: nat, failed: bool) {
    && s.lock.Applying? && s.lock.snapshot == snapshot && s.lock.began == fetched && s.coreFailed == failed
    && (s.lock.aphase == Listed ==> s.userList == snapshot.users && s.origin == fetched)
  }

  lemma ApplyingStep(s: State, a: Action, snapshot: Snapshot, fetched: nat, failed: bool)
    requires IsApplying(s, snapshot, fetched, failed) && Enabled(s, a)
    requires a != CommitEtag && a != ApplyDelete(false) && a != ApplyAdd(false)
    ensures IsApplying(Step(s, a), snapshot, fetched, failed)
  {
  }

  lemma {:induction false} KeepsApplying(s: State, acts: seq<Action>, snapshot: Snapshot, fetched: nat, failed: bool)
    requires IsApplying(s, snapshot, fetched, failed) && Exec(s, acts).Some?
    requires NothingRefused(acts) && CommitEtag !in acts
    ensures IsApplying(Exec(s, acts).value, snapshot, fetched, failed)
    decreases |acts|
  {
    if acts != [] {
      var shorter, a := acts[..|acts| - 1], acts[|acts| - 1];
      assert a in acts && forall x :: x in shorter ==> x in acts;
      KeepsApplying(s, shorter, snapshot, fetched, failed);
      ApplyingStep(Exec(s, shorter).value, a, snapshot, fetched, failed);
    }
  }

  /** The list is the panel's answer, and its users, and nobody else, are authorised unless the core has
      failed before. */
  predicate Applied(s: State, snapshot: Snapshot, fetched: nat, failed: bool) {
    && s.lock.Unlocked? && s.userList == snapshot.users && s.userEtag == snapshot.etag && s.origin == fetched
    && s.auth <= Uuids(snapshot.users) && (!failed ==> s.auth == Uuids(snapshot.users))
  }

  /** Fence with a list of the current generation: the lock is taken for exactly that list, and its
      holder is never stuck: its four steps are possible, whatever else happens between them. When it
      lets the lock go, and the core has refused nothing meanwhile, the list that the panel served is
      applied. */
  lemma FreshListIsApplied(start: State, run: seq<Action>, acts: seq<Action>)
    requires Initial(start) && Exec(start, run).Some? && Enabled(Exec(start, run).value, Fence)
    requires var f := Exec(start, run).value.fetch; f.gen == Exec(start, run).value.generation && f.body.Some?
    requires Exec(Step(Exec(start, run).value, Fence), acts + [CommitEtag]).Some?
    requires NothingRefused(acts) && CommitEtag !in acts
    ensures var s := Exec(start, run).value;
            && s.fetch.body.value.users == s.fetch.served
            && Applied(Exec(Step(s, Fence), acts + [CommitEtag]).value, s.fetch.body.value, s.fetch.began, s.coreFailed)
  {
    var s := Exec(start, run).value;
    var t := Step(s, Fence);
    RunsKeepInv(start, run);
    StepKeeps(s, Fence);
    assert (acts + [CommitEtag])[..|acts|] == acts;
    KeepsApplying(t, acts, s.fetch.body.value, s.fetch.began, s.coreFailed);
    RunsKeepInv(t, acts);
    StepKeeps(Exec(t, acts).value, CommitEtag);
  }

  /** The next step of the holder of the lock. */
  function NextOfHolder(s: State): Action
    requires s.lock.Applying?
  {
    match s.lock.aphase
    case Accepted => ApplyDelete(true)
    case Deleted => ApplyAdd(true)
    case Added => SetList
    case Listed => CommitEtag
  }

  /** It is possible, and nothing else that can happen meanwhile takes it away. */
  lemma HolderGoesOn(s: State, a: Action)
    requires s.lock.Applying? && Enabled(s, a)
    ensures Enabled(s, NextOfHolder(s))
    ensures a.ApplyDelete? || a.ApplyAdd? || a == NextOfHolder(s) || Step(s, a).lock == s.lock
  {
  }

  lemma FenceTakesTheLock(s: State)
    requires Enabled(s, Fence)
    ensures var t := Step(s, Fence);
            && t.userList == s.userList && t.auth == s.auth && t.coreFailed == s.coreFailed && t.fetch.Idle?
            && t.lock == (if s.fetch.gen == s.generation && s.fetch.body.Some?
                          then Applying(s.fetch.body.value, s.fetch.began, Accepted) else Unlocked)
            && t.userEtag == if s.fetch.gen == s.generation then s.userEtag else ""
  {
  }

  /** Without other steps in between, a list that passes the fence is applied. */
  lemma FenceLeadsToApplied(start: State, run: seq<Action>)
    requires Initial(start) && Exec(start, run).Some? && Enabled(Exec(start, run).value, Fence)
    requires var f := Exec(start, run).value.fetch; f.gen == Exec(start, run).value.generation && f.body.Some?
    ensures var s, acts := Exec(start, run).value, [ApplyDelete(true), ApplyAdd(true), SetList, CommitEtag];
            && Exec(Step(s, Fence), acts).Some?
            && Applied(Exec(Step(s, Fence), acts).value, s.fetch.body.value, s.fetch.began, s.coreFailed)
  {
    var t := Step(Exec(start, run).value, Fence);
    var three := [ApplyDelete(true), ApplyAdd(true), SetList];
    var all := [ApplyDelete(true), ApplyAdd(true), SetList, CommitEtag];
    assert all == three + [CommitEtag];
    ThreeSteps(t);
    assert all[..3] == three;
    FreshListIsApplied(start, run, three);
  }

  lemma ThreeSteps(t: State)
    requires t.lock.Applying? && t.lock.aphase == Accepted
    ensures var acts := [ApplyDelete(true), ApplyAdd(true), SetList];
            Exec(t, acts).Some? && Enabled(Exec(t, acts).value, CommitEtag)
  {
    var a, b, c := ApplyDelete(true), ApplyAdd(true), SetList;
    assert [a, b, c][..2] == [a, b] && [a, b][..1] == [a] && [a][..0] == [];
    assert Exec(t, [a]) == Some(Step(t, a));
    assert Exec(t, [a, b]) == Some(Step(Step(t, a), b));
    assert Exec(t, [a, b, c]) == Some(Step(Step(Step(t, a), b), c));
  }

  /** A fetch that carries the panel's current ETag in the current generation is answered by 304, and then
      everything stays as it is: the applied list is the panel's. */
  lemma UnchangedListIsKept(start: State, run: seq<Action>)
    requires Initial(start) && Exec(start, run).Some? && Enabled(Exec(start, run).value, Serve)
    requires var s := Exec(start, run).value;
             s.fetch.gen == s.generation && s.fetch.etag == s.etag != "" && s.lock.Unlocked?
    ensures var s := Exec(start, run).value;
            var t := Step(s, Serve);
            && s.userList == s.list && Enabled(t, Fence)
            && Step(t, Fence) == t.(fetch := Idle, now := t.now + 1) && t == s.(fetch := t.fetch, now := t.now)
  {
    RunsKeepInv(start, run);
  }

  // ---- a revocation takes away exactly its users ----

  /** How far a revocation of `ids` is that began with these users. */
  predicate IsRevoking(s: State, ids: set<int>, users: seq<User>, auth: set<string>) {
    && s.lock.Revoking? && s.lock.ids == ids
    && s.userList == (if s.lock.rphase == Filtered then Kept(users, ids) else users)
    && s.auth == if s.lock.rphase == Fenced then auth else auth - (Uuids(users) - Uuids(Kept(users, ids)))
  }

  lemma RevokingStep(s: State, a: Action, ids: set<int>, users: seq<User>, auth: set<string>)
    requires IsRevoking(s, ids, users, auth) && Enabled(s, a) && a != RevokeDelete(false) && a != RevokeEnd
    ensures IsRevoking(Step(s, a), ids, users, auth)
  {
  }

  lemma {:induction false} KeepsRevoking(s: State, acts: seq<Action>, ids: set<int>, users: seq<User>,
                                         auth: set<string>)
    requires IsRevoking(s, ids, users, auth) && Exec(s, acts).Some?
    requires RevokeDelete(false) !in acts && RevokeEnd !in acts
    ensures IsRevoking(Exec(s, acts).value, ids, users, auth)
    decreases |acts|
  {
    if acts != [] {
      var shorter, a := acts[..|acts| - 1], acts[|acts| - 1];
      assert a in acts && forall x :: x in shorter ==> x in acts;
      KeepsRevoking(s, shorter, ids, users, auth);
      RevokingStep(Exec(s, shorter).value, a, ids, users, auth);
    }
  }

  /** A revocation that the core does not refuse ends with exactly the other users listed, in their
      order, and with exactly the users who left the list unauthorised. */
  lemma RevocationIsExact(start: State, run: seq<Action>, ids: set<int>, acts: seq<Action>)
    requires Initial(start) && Exec(start, run).Some? && Enabled(Exec(start, run).value, RevokeBegin(ids))
    requires Exec(Step(Exec(start, run).value, RevokeBegin(ids)), acts + [RevokeEnd]).Some?
    requires RevokeDelete(false) !in acts && RevokeEnd !in acts
    ensures var s := Exec(start, run).value;
            var t := Exec(Step(s, RevokeBegin(ids)), acts + [RevokeEnd]).value;
            && t.userList == Kept(s.userList, ids) && t.auth == s.auth - Uuids(Dropped(s.userList, ids))
            && (forall u :: u in t.userList <==> u in s.userList && u.id !in ids)
            && t.userEtag == "" && t.lock.Unlocked?
  {
    var s := Exec(start, run).value;
    var t := Step(s, RevokeBegin(ids));
    RunsKeepInv(start, run);
    assert (acts + [RevokeEnd])[..|acts|] == acts;
    KeepsRevoking(t, acts, ids, s.userList, s.auth);
    EndOfRevocation(Exec(t, acts).value, ids, s.userList, s.auth);
  }

  lemma EndOfRevocation(s: State, ids: set<int>, users: seq<User>, auth: set<string>)
    requires IsRevoking(s, ids, users, auth) && Enabled(s, RevokeEnd) && ValidUsers(users)
    ensures var t := Step(s, RevokeEnd);
            && t.userList == Kept(users, ids) && t.auth == auth - Uuids(Dropped(users, ids))
            && (forall u :: u in t.userList <==> u in users && u.id !in ids)
            && t.userEtag == "" && t.lock.Unlocked?
  {
    KeptOrDropped(users, ids);
    SplitUuids(users, ids);
    assert Uuids(Dropped(users, ids)) <= Uuids(users);
    assert Uuids(users) - (Uuids(users) - Uuids(Dropped(users, ids))) == Uuids(Dropped(users, ids));
  }

  // ---- a cleared ETag ----

  /** No ETag is kept, and the fetch in progress carries none. */
  predicate AsksForEverything(s: State) {
    s.userEtag == "" && (s.fetch.Sent? ==> s.fetch.etag == "") && (s.fetch.Answered? ==> s.fetch.body.Some?)
  }

  lemma AskingStep(s: State, a: Action)
    requires Enabled(s, a) && a != CommitEtag && s.userEtag == ""
    ensures Step(s, a).userEtag == "" && (AsksForEverything(s) || a == ReadEtag ==> AsksForEverything(Step(s, a)))
  {
  }

  lemma {:induction false} StaysCleared(s: State, acts: seq<Action>)
    requires Exec(s, acts).Some? && s.userEtag == "" && CommitEtag !in acts
    ensures Exec(s, acts).value.userEtag == ""
    ensures AsksForEverything(s) || ReadEtag in acts ==> AsksForEverything(Exec(s, acts).value)
    decreases |acts|
  {
    if acts != [] {
      var shorter, a := acts[..|acts| - 1], acts[|acts| - 1];
      assert acts == shorter + [a];
      StaysCleared(s, shorter);
      AskingStep(Exec(s, shorter).value, a);
    }
  }

  /** After an isolation, a revocation or a stale answer the full list is fetched again: once a fetch has
      read the ETag, no fetch is answered by 304 before another list is applied. */
  lemma ClearedEtagFetchesTheList(start: State, run: seq<Action>, a: Action, acts: seq<Action>)
    requires Initial(start) && Exec(start, run).Some? && Enabled(Exec(start, run).value, a)
    requires a == Isolated || a == RevokeEnd
             || (a == Fence && Exec(start, run).value.fetch.gen != Exec(start, run).value.generation)
    requires Exec(Step(Exec(start, run).value, a), acts).Some? && ReadEtag in acts && CommitEtag !in acts
    ensures var t := Exec(Step(Exec(start, run).value, a), acts).value;
            t.fetch.Answered? ==> t.fetch.body.Some?
  {
    StaysCleared(Step(Exec(start, run).value, a), acts);
  }
}
