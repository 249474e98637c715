/** The counters of a node as the outbox sees them: what a capture reads, what counting adds and what a
    commit takes away (core/officialhy2/manager.go, GetUserTrafficSlice and CommitUserTraffic). */
module NodeCounters {
  import opened Options
  import opened TrafficTypes
  import opened Batching
  import opened Totals
  import opened OutboxMachine
  import RB = RevocationBarrier

  /** The counters of the users in the index. */
  function CountersOf(n: RB.Node): Counters {
    map u | u in n.counterOf && u in n.uidMap && n.counterOf[u] < |n.storages| ::
      Row(n.uidMap[u], n.storages[n.counterOf[u]].up, n.storages[n.counterOf[u]].down, u)
  }

  // ---- a capture ----

  function UidOf(n: RB.Node, u: string): int { if u in n.uidMap then n.uidMap[u] else 0 }

  function ReadCounter(n: RB.Node, u: string): Row
    requires u in n.counterOf && n.counterOf[u] < |n.storages|
  {
    Row(UidOf(n, u), n.storages[n.counterOf[u]].up, n.storages[n.counterOf[u]].down, u)
  }

  /** A counter with bytes; those of an authorised user only above the threshold, given in kilobytes. */
  predicate WorthReporting(n: RB.Node, u: string, minTraffic: nat) {
    RB.NonZero(n, u)
    && (u in n.auth ==>
          minTraffic * 1000 < n.storages[n.counterOf[u]].up + n.storages[n.counterOf[u]].down)
  }

  /** The rows read from the counters in `order`, and the counters without a user, which are deleted. */
  predicate IsSlice(n: RB.Node, order: seq<string>, minTraffic: nat, rows: seq<Row>, dropped: set<string>) {
    && DistinctUuids(rows)
    && (forall r :: r in rows ==>
          r.uuid in order && WorthReporting(n, r.uuid, minTraffic) && r == ReadCounter(n, r.uuid) && r.uid != 0)
    && (forall u :: u in order && WorthReporting(n, u, minTraffic) && UidOf(n, u) != 0 ==> ReadCounter(n, u) in rows)
    && dropped == (set u | u in order && WorthReporting(n, u, minTraffic) && UidOf(n, u) == 0)
  }

  lemma SliceGrows(n: RB.Node, order: seq<string>, u: string, minTraffic: nat, rows: seq<Row>, dropped: set<string>)
    requires IsSlice(n, order, minTraffic, rows, dropped) && u !in order
    requires WorthReporting(n, u, minTraffic) && UidOf(n, u) != 0
    ensures IsSlice(n, order + [u], minTraffic, rows + [ReadCounter(n, u)], dropped)
  {
    var x := ReadCounter(n, u);
    UuidsExtend(rows, x);
    assert forall q :: q in rows + [x] <==> q in rows || q == x;
    assert forall v :: v in order + [u] <==> v in order || v == u;
  }

  lemma SliceSkips(n: RB.Node, order: seq<string>, u: string, minTraffic: nat, rows: seq<Row>, dropped: set<string>)
    requires IsSlice(n, order, minTraffic, rows, dropped) && !(WorthReporting(n, u, minTraffic) && UidOf(n, u) != 0)
    ensures IsSlice(n, order + [u], minTraffic, rows,
                    if WorthReporting(n, u, minTraffic) then dropped + {u} else dropped)
  {
    assert forall v :: v in order + [u] <==> v in order || v == u;
  }

  /** GetUserTrafficSlice, with the order in which the counters are enumerated. */
  method GetUserTrafficSlice(n: RB.Node, order: seq<string>, minTraffic: nat)
      returns (rows: seq<Row>, dropped: set<string>)
    requires RB.CounterObjectsOk(n.storages, n.counterOf)
    requires (forall i, j :: 0 <= i < j < |order| ==> order[i] != order[j])
             && (forall u :: u in order <==> u in n.counterOf)
    ensures IsSlice(n, order, minTraffic, rows, dropped)
    ensures RB.Inv(n) && n.admin.Free? ==> dropped == {} && Covered(CountersOf(n), rows)
    ensures RB.Inv(n) && n.admin.Free? && minTraffic == 0 ==> CompleteCapture(CountersOf(n), rows)
  {
    rows, dropped := [], {};
    for i := 0 to |order|
      invariant IsSlice(n, order[..i], minTraffic, rows, dropped)
    {
      var u := order[i];
      assert order[..i + 1] == order[..i] + [u] && u !in order[..i];
      var s := n.storages[n.counterOf[u]];
      if s.up + s.down != 0 && !(u in n.auth && s.up + s.down <= minTraffic * 1000) {
        if UidOf(n, u) == 0 {
          SliceSkips(n, order[..i], u, minTraffic, rows, dropped);
          dropped := dropped + {u};
        } else {
          SliceGrows(n, order[..i], u, minTraffic, rows, dropped);
          rows := rows + [ReadCounter(n, u)];
        }
      } else {
        SliceSkips(n, order[..i], u, minTraffic, rows, dropped);
      }
    }
    assert order[..|order|] == order;
    if RB.Inv(n) && n.admin.Free? {
      SliceIsCapture(n, order, minTraffic, rows, dropped);
    }
  }

  /** Behind the barrier, no counter with bytes is without a user: nothing is deleted unreported. */
  lemma SliceIsCapture(n: RB.Node, order: seq<string>, minTraffic: nat, rows: seq<Row>, dropped: set<string>)
    requires RB.Inv(n) && n.admin.Free? && IsSlice(n, order, minTraffic, rows, dropped)
    requires forall u :: u in order <==> u in n.counterOf
    ensures dropped == {} && Covered(CountersOf(n), rows)
    ensures minTraffic == 0 ==> CompleteCapture(CountersOf(n), rows)
  {
    forall r | r in rows
      ensures r.uuid in CountersOf(n) && CountersOf(n)[r.uuid] == r && ValidRow(r)
    {
      assert r.uuid in order && WorthReporting(n, r.uuid, minTraffic);
      assert r.uuid in n.uidMap;
    }
    forall u | u in order && WorthReporting(n, u, minTraffic)
      ensures UidOf(n, u) != 0
    {
      assert u in n.uidMap;
    }
    if minTraffic == 0 {
      forall u | u in CountersOf(n) && CountersOf(n)[u].up + CountersOf(n)[u].down != 0
        ensures CountersOf(n)[u] in rows
      {
        assert u in order && WorthReporting(n, u, 0) && ReadCounter(n, u) == CountersOf(n)[u];
      }
    }
  }

  // ---- counting and committing ----

  lemma BumpIsLog(n: RB.Node, u: string, up: nat, down: nat)
    requires RB.CounterObjectsOk(n.storages, n.counterOf) && u in n.counterOf && u in n.uidMap
    ensures CountersOf(RB.Bump(n, n.counterOf[u], up, down)) == AddBytes(CountersOf(n), u, n.uidMap[u], up, down)
  {
  }

  /** What a callback counts is what the outbox machine counts. */
  lemma CountingIsLog(start: RB.Node, acts: seq<RB.Action>, a: RB.Action)
    requires RB.Initial(start) && RB.Exec(start, acts).Some?
    requires RB.Enabled(RB.Exec(start, acts).value, a) && (a.AddDownload? || a.AddUpload?)
    ensures var n := RB.Exec(start, acts).value;
            var u, c := RB.CountedBy(n, a), n.calls[a.id];
            u in n.uidMap
            && CountersOf(RB.Step(n, a)) == if a.AddUpload? then AddBytes(CountersOf(n), u, n.uidMap[u], c.tx, 0)
                                           else AddBytes(CountersOf(n), u, n.uidMap[u], 0, c.rx)
  {
    RB.InitialIsInv(start);
    RB.RunsKeepInv(start, acts);
    RB.EveryByteIsReportable(start, acts, a);
    var n := RB.Exec(start, acts).value;
    var u, c := RB.CountedBy(n, a), n.calls[a.id];
    if a.AddUpload? {
      BumpIsLog(n, u, c.tx, 0);
    } else {
      BumpIsLog(n, u, 0, c.rx);
    }
    CountersIgnoreCalls(n, a);
  }

  lemma CountersIgnoreCalls(n: RB.Node, a: RB.Action)
    requires RB.OfCallback(a) && RB.CallEnabled(n, a)
    ensures CountersOf(RB.Step(n, a)) == CountersOf(RB.Shared(n, a))
  {
  }

  /** A commit is the subtraction of the outbox machine; a retired user whose counter it empties leaves
      the counters. */
  lemma CommitIsSubtraction(start: RB.Node, acts: seq<RB.Action>, r: Row)
    requires RB.Initial(start) && RB.Exec(start, acts).Some? && 0 <= r.up && 0 <= r.down
    requires RB.Enabled(RB.Exec(start, acts).value, RB.Commit(r.uuid, r.up, r.down))
    requires r.uuid in CountersOf(RB.Exec(start, acts).value)
    ensures var n := RB.Exec(start, acts).value;
            var left, m := SubtractRow(CountersOf(n), r), RB.Step(n, RB.Commit(r.uuid, r.up, r.down));
            CountersOf(m) == if r.uuid !in n.auth
              && left[r.uuid].up + left[r.uuid].down == 0 then left - {r.uuid} else left
  {
    RB.InitialIsInv(start);
    RB.RunsKeepInv(start, acts);
    var n := RB.Exec(start, acts).value;
    CommitStep(n, r);
  }

  lemma CommitStep(n: RB.Node, r: Row)
    requires RB.CounterObjectsOk(n.storages, n.counterOf) && r.uuid in CountersOf(n) && 0 <= r.up && 0 <= r.down
    requires RB.Enabled(n, RB.Commit(r.uuid, r.up, r.down))
    ensures var left, m := SubtractRow(CountersOf(n), r), RB.Step(n, RB.Commit(r.uuid, r.up, r.down));
            CountersOf(m) == if r.uuid !in n.auth
              && left[r.uuid].up + left[r.uuid].down == 0 then left - {r.uuid} else left
  {
    assert RB.Step(n, RB.Commit(r.uuid, r.up, r.down)) == RB.Retire(WithSubtracted(n, r), {r.uuid});
    SubtractedStorage(n, r);
    RetiredCounters(WithSubtracted(n, r), r.uuid);
  }

  function WithSubtracted(n: RB.Node, r: Row): RB.Node
    requires r.uuid in n.counterOf && n.counterOf[r.uuid] < |n.storages| && 0 <= r.up && 0 <= r.down
  {
    var k := n.counterOf[r.uuid];
    var s := n.storages[k];
    n.(storages := n.storages[k := s.(up := RB.Minus(s.up, r.up), down := RB.Minus(s.down, r.down))])
  }

  lemma SubtractedStorage(n: RB.Node, r: Row)
    requires RB.CounterObjectsOk(n.storages, n.counterOf) && r.uuid in CountersOf(n) && 0 <= r.up && 0 <= r.down
    ensures CountersOf(WithSubtracted(n, r)) == SubtractRow(CountersOf(n), r)
  {
    var m := WithSubtracted(n, r);
    forall u | u in n.counterOf && u != r.uuid
      ensures n.counterOf[u] < |n.storages| && m.storages[n.counterOf[u]] == n.storages[n.counterOf[u]]
    {
      assert n.storages[n.counterOf[u]].uuid == u;
    }
    assert CountersOf(m).Keys == CountersOf(n).Keys;
  }

  lemma RetiredCounters(n: RB.Node, u: string)
    requires u in CountersOf(n)
    ensures CountersOf(RB.Retire(n, {u}))
         == if u !in n.auth
           && CountersOf(n)[u].up + CountersOf(n)[u].down == 0 then CountersOf(n) - {u} else CountersOf(n)
  {
  }
}
