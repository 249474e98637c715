/** What the callbacks count, read off the actions alone: every upload and every download goes, whole,
    into the counter of the user it was reported for. */
module CountedBytes {
  import opened Options
  import opened RevocationBarrier

  // ---- what the actions say ----

  /** The arguments of LogTraffic. */
  datatype Report = Report(uuid: string, tx: nat, rx: nat)

  /** The arguments of the last call with this name. */
  function LastReport(acts: seq<Action>, id: nat): Option<Report> {
    if acts == [] then None
    else
      var a := acts[|acts| - 1];
      if a.Enter? && a.id == id then Some(Report(a.uuid, a.tx, a.rx)) else LastReport(acts[..|acts| - 1], id)
  }

  /** Bytes of the calls for `u` whose upload took place. */
  function Uploaded(acts: seq<Action>, u: string): nat {
    if acts == [] then 0
    else
      var init, a := acts[..|acts| - 1], acts[|acts| - 1];
      Uploaded(init, u) + if a.AddUpload? then TxOf(LastReport(init, a.id), u) else 0
  }

  /** Bytes of the calls for `u` whose download took place. */
  function Downloaded(acts: seq<Action>, u: string): nat {
    if acts == [] then 0
    else
      var init, a := acts[..|acts| - 1], acts[|acts| - 1];
      Downloaded(init, u) + if a.AddDownload? then RxOf(LastReport(init, a.id), u) else 0
  }

  function TxOf(r: Option<Report>, u: string): nat { if r.Some? && r.value.uuid == u then r.value.tx else 0 }

  function RxOf(r: Option<Report>, u: string): nat { if r.Some? && r.value.uuid == u then r.value.rx else 0 }

  // ---- what the counters hold ----

  function UpTotal(storages: seq<Storage>, u: string): nat {
    if storages == [] then 0
    else
      var init, s := storages[..|storages| - 1], storages[|storages| - 1];
      UpTotal(init, u) + if s.uuid == u then s.up else 0
  }

  function DownTotal(storages: seq<Storage>, u: string): nat {
    if storages == [] then 0
    else
      var init, s := storages[..|storages| - 1], storages[|storages| - 1];
      DownTotal(init, u) + if s.uuid == u then s.down else 0
  }

  lemma TotalsExtend(storages: seq<Storage>, s: Storage, u: string)
    ensures UpTotal(storages + [s], u) == UpTotal(storages, u) + if s.uuid == u then s.up else 0
    ensures DownTotal(storages + [s], u) == DownTotal(storages, u) + if s.uuid == u then s.down else 0
  {
    assert (storages + [s])[..|storages|] == storages;
  }

  /** One counter changes. */
  lemma {:induction false} TotalsUpdate(storages: seq<Storage>, k: nat, s: Storage, u: string)
    requires k < |storages| && s.uuid == storages[k].uuid
    ensures UpTotal(storages[k := s], u) == UpTotal(storages, u) + if s.uuid == u then s.up - storages[k].up else 0
    ensures DownTotal(storages[k := s], u) == DownTotal(storages, u) + if s.uuid == u then s.down - storages[k].down
              else 0
    decreases |storages|
  {
    var n := |storages| - 1;
    var init := storages[..n];
    if k < n {
      TotalsUpdate(init, k, s, u);
      assert storages[k := s][..n] == init[k := s];
    } else {
      assert storages[k := s][..n] == init;
    }
  }

  // ---- the bytes a commit takes out ----

  function TakenUp(n: Node, a: Action, u: string): nat
    requires Enabled(n, a)
  {
    if a.Commit? && a.uuid == u then n.storages[n.counterOf[u]].up - Step(n, a).storages[n.counterOf[u]].up else 0
  }

  function TakenDown(n: Node, a: Action, u: string): nat
    requires Enabled(n, a)
  {
    if a.Commit? && a.uuid == u then n.storages[n.counterOf[u]].down - Step(n, a).storages[n.counterOf[u]].down else 0
  }

  function CommittedUp(s: Node, acts: seq<Action>, u: string): nat
    requires Exec(s, acts).Some?
  {
    if acts == [] then 0
    else
      var init := acts[..|acts| - 1];
      CommittedUp(s, init, u) + TakenUp(Exec(s, init).value, acts[|acts| - 1], u)
  }

  function CommittedDown(s: Node, acts: seq<Action>, u: string): nat
    requires Exec(s, acts).Some?
  {
    if acts == [] then 0
    else
      var init := acts[..|acts| - 1];
      CommittedDown(s, init, u) + TakenDown(Exec(s, init).value, acts[|acts| - 1], u)
  }

  // ---- a running call carries its report ----

  predicate Carries(n: Node, c: Call, r: Option<Report>) {
    && r.Some?
    && match c
       case Entered(uuid, tx, rx) => r.value == Report(uuid, tx, rx)
       case Creating(uuid, tx, rx) => r.value == Report(uuid, tx, rx)
       case Checked(uuid, tx, rx, _) => r.value == Report(uuid, tx, rx)
       case Holding(uuid, tx, rx, _, _) => r.value == Report(uuid, tx, rx)
       case Has(cache, tx, rx) => cache < |n.caches| && r.value == Report(n.caches[cache].uuid, tx, rx)
       case Reading(cache, tx, rx) => cache < |n.caches| && r.value == Report(n.caches[cache].uuid, tx, rx)
       case Passed(cache, tx, rx) => cache < |n.caches| && r.value == Report(n.caches[cache].uuid, tx, rx)
       case HalfDone(cache, tx) => cache < |n.caches| && r.value.uuid == n.caches[cache].uuid && r.value.tx == tx
  }

  predicate AllCarry(n: Node, acts: seq<Action>) {
    forall id :: id in n.calls ==> Carries(n, n.calls[id], LastReport(acts, id))
  }

  lemma OwnCallCarries(n: Node, a: Action, r: Option<Report>)
    requires ObjectsOk(n) && OfCallback(a) && CallEnabled(n, a) && !a.Enter?
    requires Carries(n, n.calls[a.id], r) && After(n, a).Becomes?
    ensures Carries(Shared(n, a), After(n, a).call, r)
  {
  }

  lemma CallbackCarries(n: Node, a: Action, acts: seq<Action>)
    requires Inv(n) && OfCallback(a) && CallEnabled(n, a) && AllCarry(n, acts)
    ensures AllCarry(CallStep(n, a), acts + [a])
  {
    var m := CallStep(n, a);
    assert (acts + [a])[..|acts|] == acts;
    CachesOnlyGrow(n, a);
    forall id | id in m.calls
      ensures Carries(m, m.calls[id], LastReport(acts + [a], id))
    {
      if id != a.id {
        assert Carries(n, n.calls[id], LastReport(acts, id));
      } else if !a.Enter? {
        OwnCallCarries(n, a, LastReport(acts, id));
      }
    }
  }

  lemma AdministrationCarries(n: Node, a: Action, acts: seq<Action>)
    requires !OfCallback(a) && AdminEnabled(n, a) && AllCarry(n, acts)
    ensures AllCarry(AdminStep(n, a), acts + [a])
  {
    AdministrationKeeps(n, a);
    assert (acts + [a])[..|acts|] == acts;
    forall id | id in n.calls
      ensures Carries(AdminStep(n, a), n.calls[id], LastReport(acts + [a], id))
    {
      assert Carries(n, n.calls[id], LastReport(acts, id));
    }
  }

  // ---- the books ----

  /** What was counted is in the counters or was committed. */
  predicate Balanced(s: Node, acts: seq<Action>, u: string)
    requires Exec(s, acts).Some?
  {
    && UpTotal(Exec(s, acts).value.storages, u) + CommittedUp(s, acts, u) == Uploaded(acts, u)
    && DownTotal(Exec(s, acts).value.storages, u) + CommittedDown(s, acts, u) == Downloaded(acts, u)
  }

  /** A callback adds what its report says to a counter of the reported user. */
  lemma CallbackCounts(n: Node, a: Action, r: Option<Report>, u: string)
    requires ObjectsOk(n) && OfCallback(a) && CallEnabled(n, a) && (!a.Enter? ==> Carries(n, n.calls[a.id], r))
    ensures UpTotal(Shared(n, a).storages, u) == UpTotal(n.storages, u) + if a.AddUpload? then TxOf(r, u) else 0
    ensures DownTotal(Shared(n, a).storages, u) == DownTotal(n.storages, u) + if a.AddDownload? then RxOf(r, u) else 0
  {
    if a.AddUpload? || a.AddDownload? {
      var k := n.caches[n.calls[a.id].cache].storage;
      TotalsUpdate(n.storages, k, Shared(n, a).storages[k], u);
    } else if a.GetCounter? {
      TotalsExtend(n.storages, Storage(n.calls[a.id].uuid, 0, 0), u);
    } else {
      assert Shared(n, a).storages == n.storages;
    }
  }

  /** Administration changes no counter but by a commit. */
  lemma AdministrationCounts(n: Node, a: Action, u: string)
    requires ObjectsOk(n) && !OfCallback(a) && AdminEnabled(n, a)
    ensures UpTotal(AdminStep(n, a).storages, u) + TakenUp(n, a, u) == UpTotal(n.storages, u)
    ensures DownTotal(AdminStep(n, a).storages, u) + TakenDown(n, a, u) == DownTotal(n.storages, u)
  {
    if a.Commit? {
      var k := n.counterOf[a.uuid];
      TotalsUpdate(n.storages, k, AdminStep(n, a).storages[k], u);
    } else {
      assert AdminStep(n, a).storages == n.storages;
    }
  }

  /** What one step adds to the counters of a user. */
  lemma StepCounts(n: Node, a: Action, acts: seq<Action>, u: string)
    requires ObjectsOk(n) && Enabled(n, a) && AllCarry(n, acts)
    ensures UpTotal(Step(n, a).storages, u) + TakenUp(n, a, u)
         == UpTotal(n.storages, u) + if a.AddUpload? then TxOf(LastReport(acts, a.id), u) else 0
    ensures DownTotal(Step(n, a).storages, u) + TakenDown(n, a, u)
         == DownTotal(n.storages, u) + if a.AddDownload? then RxOf(LastReport(acts, a.id), u) else 0
  {
    if OfCallback(a) {
      CallbackCounts(n, a, LastReport(acts, a.id), u);
    } else {
      AdministrationCounts(n, a, u);
    }
  }

  lemma {:induction false} RunsCarry(s: Node, acts: seq<Action>)
    requires Initial(s) && Exec(s, acts).Some?
    ensures Inv(Exec(s, acts).value) && AllCarry(Exec(s, acts).value, acts)
    decreases |acts|
  {
    InitialIsInv(s);
    RunsKeepInv(s, acts);
    if acts != [] {
      var init, a := acts[..|acts| - 1], acts[|acts| - 1];
      RunsCarry(s, init);
      assert acts == init + [a];
      if OfCallback(a) {
        CallbackCarries(Exec(s, init).value, a, init);
      } else {
        AdministrationCarries(Exec(s, init).value, a, init);
      }
    }
  }

  lemma {:induction false} RunsBalance(s: Node, acts: seq<Action>, u: string)
    requires Initial(s) && Exec(s, acts).Some?
    ensures Balanced(s, acts, u)
    decreases |acts|
  {
    if acts != [] {
      var init, a := acts[..|acts| - 1], acts[|acts| - 1];
      RunsBalance(s, init, u);
      RunsCarry(s, init);
      StepCounts(Exec(s, init).value, a, init, u);
    }
  }

  /** Exact counting. After every run, for every user: what its counters hold of uploads, and what
      commits have taken out of them, is together the sum of `tx` over its calls whose upload took place;
      and of downloads the sum of `rx` over its calls whose download did. */
  lemma CountedExactly(s: Node, acts: seq<Action>, u: string)
    requires Initial(s) && Exec(s, acts).Some?
    ensures UpTotal(Exec(s, acts).value.storages, u) == Uploaded(acts, u) - CommittedUp(s, acts, u)
    ensures DownTotal(Exec(s, acts).value.storages, u) == Downloaded(acts, u) - CommittedDown(s, acts, u)
  {
    RunsBalance(s, acts, u);
  }

  lemma {:induction false} NothingCommitted(s: Node, acts: seq<Action>, u: string)
    requires Exec(s, acts).Some? && forall a :: a in acts ==> !a.Commit?
    ensures CommittedUp(s, acts, u) == 0 && CommittedDown(s, acts, u) == 0
    decreases |acts|
  {
    if acts != [] {
      assert acts[|acts| - 1] in acts;
      NothingCommitted(s, acts[..|acts| - 1], u);
    }
  }

  /** Without commits, the counters are read off the actions. */
  lemma CountersAreTheReports(s: Node, acts: seq<Action>, u: string)
    requires Initial(s) && Exec(s, acts).Some? && forall a :: a in acts ==> !a.Commit?
    ensures UpTotal(Exec(s, acts).value.storages, u) == Uploaded(acts, u)
    ensures DownTotal(Exec(s, acts).value.storages, u) == Downloaded(acts, u)
  {
    CountedExactly(s, acts, u);
    NothingCommitted(s, acts, u);
  }

  // ---- a commit takes out what was captured ----

  /** The counter of `u` is object `k` and holds at least these bytes. */
  predicate HoldsBytes(n: Node, u: string, k: nat, up: nat, down: nat) {
    u in n.counterOf && n.counterOf[u] == k < |n.storages| && up <= n.storages[k].up && down <= n.storages[k].down
  }

  lemma BytesStay(n: Node, a: Action, u: string, k: nat, up: nat, down: nat)
    requires ObjectsOk(n) && Enabled(n, a) && HoldsBytes(n, u, k, up, down) && 0 < up + down
    requires !(a.Commit? && a.uuid == u)
    ensures HoldsBytes(Step(n, a), u, k, up, down)
  {
    if a.Commit? {
      assert n.storages[n.counterOf[a.uuid]].uuid == a.uuid;
    }
  }

  lemma {:induction false} CapturedBytesStay(n: Node, acts: seq<Action>, u: string, k: nat, up: nat, down: nat)
    requires Inv(n) && Exec(n, acts).Some? && HoldsBytes(n, u, k, up, down) && 0 < up + down
    requires forall a :: a in acts ==> !(a.Commit? && a.uuid == u)
    ensures HoldsBytes(Exec(n, acts).value, u, k, up, down)
    decreases |acts|
  {
    if acts != [] {
      var init, a := acts[..|acts| - 1], acts[|acts| - 1];
      assert a in acts && forall x :: x in init ==> x in acts;
      CapturedBytesStay(n, init, u, k, up, down);
      RunsKeepInv(n, init);
      BytesStay(Exec(n, init).value, a, u, k, up, down);
    }
  }

  /** From `n` to `m` exactly these bytes left object `k`, and nothing else changed in the counters. */
  predicate TookExactly(n: Node, m: Node, k: nat, up: nat, down: nat) {
    && |m.storages| == |n.storages| && k < |n.storages|
    && m.storages[k].up + up == n.storages[k].up && m.storages[k].down + down == n.storages[k].down
    && forall j :: 0 <= j < |n.storages| && j != k ==> m.storages[j] == n.storages[j]
  }

  lemma CommitTakes(n: Node, u: string, k: nat, up: nat, down: nat)
    requires HoldsBytes(n, u, k, up, down) && n.admin.Free?
    ensures Enabled(n, Commit(u, up, down)) && TookExactly(n, Step(n, Commit(u, up, down)), k, up, down)
  {
  }

  /** Take a row that a capture has read from a counter. However the run goes on, until a row of the same
      counter is committed, a commit of that row is possible whenever no DelUsers is running, takes
      exactly its bytes out of exactly that counter, and leaves what was counted since. */
  lemma CommitIsExact(s: Node, before: seq<Action>, acts: seq<Action>, u: string, up: nat, down: nat)
    requires Initial(s) && Exec(s, before).Some? && Exec(Exec(s, before).value, acts).Some?
    requires var n := Exec(s, before).value;
             u in n.counterOf && HoldsBytes(n, u, n.counterOf[u], up, down) && 0 < up + down
    requires forall a :: a in acts ==> !(a.Commit? && a.uuid == u)
    requires Exec(Exec(s, before).value, acts).value.admin.Free?
    ensures var n, m := Exec(s, before).value, Exec(Exec(s, before).value, acts).value;
            && Enabled(m, Commit(u, up, down))
            && TookExactly(m, Step(m, Commit(u, up, down)), n.counterOf[u], up, down)
  {
    InitialIsInv(s);
    RunsKeepInv(s, before);
    var n := Exec(s, before).value;
    CapturedBytesStay(n, acts, u, n.counterOf[u], up, down);
    CommitTakes(Exec(n, acts).value, u, n.counterOf[u], up, down);
  }
}
