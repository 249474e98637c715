/** Splitting a queue of counter rows into wire batches (api/v2board/traffic.go). */
module Batching {
  import opened Options
  import opened TrafficTypes

  datatype Picked = Picked(selected: seq<Row>, rest: seq<Row>)

  function Uids(rows: seq<Row>): set<int> { set r | r in rows :: r.uid }

  function Uuids(rows: seq<Row>): set<string> { set r | r in rows :: r.uuid }

  predicate DistinctUids(rows: seq<Row>) {
    forall i, j :: 0 <= i < j < |rows| ==> rows[i].uid != rows[j].uid
  }

  predicate DistinctUuids(rows: seq<Row>) {
    forall i, j :: 0 <= i < j < |rows| ==> rows[i].uuid != rows[j].uuid
  }

  /** What the selection loop has chosen after scanning `rows`. */
  function Pick(rows: seq<Row>): Picked {
    if rows == [] then Picked([], [])
    else
      var p, r := Pick(rows[..|rows| - 1]), rows[|rows| - 1];
      if |p.selected| == MAX_TRAFFIC_ROWS || r.uid in Uids(p.selected)
      then p.(rest := p.rest + [r])
      else p.(selected := p.selected + [r])
  }

  /** selectTrafficBatch: None is the "invalid traffic counters" error. */
  method SelectTrafficBatch(rows: seq<Row>) returns (r: Option<Picked>)
    ensures r.Some? <==> ValidRows(rows)
    ensures r.Some? ==> r.value == Pick(rows)
    ensures r.Some? ==> multiset(r.value.selected) + multiset(r.value.rest) == multiset(rows)
    ensures r.Some? ==> |r.value.selected| <= MAX_TRAFFIC_ROWS && DistinctUids(r.value.selected)
    ensures r.Some? && rows != [] ==> r.value.selected != []
  {
    var selected: seq<Row>, rest: seq<Row>, seen: set<int> := [], [], {};
    for i := 0 to |rows|
      invariant ValidRows(rows[..i])
      invariant Picked(selected, rest) == Pick(rows[..i])
      invariant seen == Uids(selected)
    {
      assert rows[..i + 1][..i] == rows[..i];
      if rows[i].uid <= 0 || rows[i].up < 0 || rows[i].down < 0 {
        assert rows[i] in rows;
        return None;
      }
      if |selected| == MAX_TRAFFIC_ROWS || rows[i].uid in seen {
        rest := rest + [rows[i]];
      } else {
        seen := seen + {rows[i].uid};
        selected := selected + [rows[i]];
      }
    }
    assert rows[..|rows|] == rows;
    PickPartitions(rows);
    r := Some(Picked(selected, rest));
  }

  lemma {:induction false} PickSizes(rows: seq<Row>)
    ensures |Pick(rows).selected| + |Pick(rows).rest| == |rows|
    ensures |Pick(rows).selected| <= MAX_TRAFFIC_ROWS
    ensures rows != [] ==> Pick(rows).selected != []
    decreases |rows|
  {
    if rows != [] {
      PickSizes(rows[..|rows| - 1]);
    }
  }

  lemma {:induction false} PickKeepsRows(rows: seq<Row>)
    ensures multiset(Pick(rows).selected) + multiset(Pick(rows).rest) == multiset(rows)
    decreases |rows|
  {
    if rows != [] {
      var init, r := rows[..|rows| - 1], rows[|rows| - 1];
      PickKeepsRows(init);
      assert multiset(rows) == multiset(init) + multiset{r} by { assert rows == init + [r]; }
      assert multiset(Pick(init).selected + [r]) == multiset(Pick(init).selected) + multiset{r};
      assert multiset(Pick(init).rest + [r]) == multiset(Pick(init).rest) + multiset{r};
    }
  }

  lemma DistinctUidsExtend(rows: seq<Row>, r: Row)
    requires DistinctUids(rows) && r.uid !in Uids(rows)
    ensures DistinctUids(rows + [r])
  {
    forall i | 0 <= i < |rows|
      ensures rows[i].uid != r.uid
    {
      assert rows[i].uid in Uids(rows);
    }
  }

  lemma {:induction false} PickDistinctUids(rows: seq<Row>)
    ensures DistinctUids(Pick(rows).selected)
    decreases |rows|
  {
    if rows != [] {
      var p, r := Pick(rows[..|rows| - 1]), rows[|rows| - 1];
      PickDistinctUids(rows[..|rows| - 1]);
      if r.uid !in Uids(p.selected) {
        DistinctUidsExtend(p.selected, r);
      }
    }
  }

  /** The batch is at most 500 rows with distinct users, no row is lost or duplicated,
      and a non-empty queue always makes progress. */
  lemma PickPartitions(rows: seq<Row>)
    ensures var p := Pick(rows);
            && multiset(p.selected) + multiset(p.rest) == multiset(rows)
            && |p.selected| + |p.rest| == |rows|
            && |p.selected| <= MAX_TRAFFIC_ROWS
            && DistinctUids(p.selected)
            && (rows != [] ==> p.selected != [])
  {
    PickSizes(rows);
    PickKeepsRows(rows);
    PickDistinctUids(rows);
  }

  lemma PickMembers(rows: seq<Row>)
    ensures forall r :: r in rows <==> r in Pick(rows).selected || r in Pick(rows).rest
  {
    PickKeepsRows(rows);
    var p := Pick(rows);
    forall r
      ensures r in rows <==> r in p.selected || r in p.rest
    {
      assert r in rows <==> r in multiset(rows);
      assert multiset(rows) == multiset(p.selected) + multiset(p.rest);
    }
  }

  lemma {:induction false} PickBytes(rows: seq<Row>, uid: int, d: Direction)
    ensures Bytes(Pick(rows).selected, uid, d) + Bytes(Pick(rows).rest, uid, d) == Bytes(rows, uid, d)
    decreases |rows|
  {
    if rows != [] {
      var init, r := rows[..|rows| - 1], rows[|rows| - 1];
      var p := Pick(init);
      PickBytes(init, uid, d);
      BytesExtend(p.selected, r, uid, d);
      BytesExtend(p.rest, r, uid, d);
    }
  }

  /** Distinctness of a concatenation, in a form that does not depend on the order of rows. */
  lemma DistinctUuidsSplit(a: seq<Row>, b: seq<Row>)
    ensures DistinctUuids(a + b) <==> DistinctUuids(a) && DistinctUuids(b) && Uuids(a) !! Uuids(b)
  {
    if DistinctUuids(a) && DistinctUuids(b) && Uuids(a) !! Uuids(b) {
      forall i, j | 0 <= i < |a| && 0 <= j < |b|
        ensures a[i].uuid != b[j].uuid
      {
        assert a[i].uuid in Uuids(a) && b[j].uuid in Uuids(b);
      }
    }
    if DistinctUuids(a + b) {
      assert forall i :: 0 <= i < |a| ==> a[i] == (a + b)[i];
      assert forall j :: 0 <= j < |b| ==> b[j] == (a + b)[|a| + j];
    }
  }

  lemma {:induction false} PickUuids(rows: seq<Row>)
    ensures Uuids(Pick(rows).selected) + Uuids(Pick(rows).rest) == Uuids(rows)
  {
    PickMembers(rows);
  }

  lemma UuidsExtend(rows: seq<Row>, r: Row)
    ensures Uuids(rows + [r]) == Uuids(rows) + {r.uuid}
    ensures DistinctUuids(rows + [r]) <==> DistinctUuids(rows) && r.uuid !in Uuids(rows)
  {
    assert forall q :: q in rows + [r] <==> q in rows || q == r;
    DistinctUuidsSplit(rows, [r]);
    assert Uuids([r]) == {r.uuid};
    assert DistinctUuids([r]);
  }

  lemma {:induction false} PickKeepsUuidsApart(rows: seq<Row>)
    requires DistinctUuids(rows)
    ensures DistinctUuids(Pick(rows).selected) && DistinctUuids(Pick(rows).rest)
    ensures Uuids(Pick(rows).selected) !! Uuids(Pick(rows).rest)
    decreases |rows|
  {
    if rows != [] {
      var init, r := rows[..|rows| - 1], rows[|rows| - 1];
      PickKeepsUuidsApart(init);
      PickUuids(init);
      assert rows == init + [r];
      UuidsExtend(init, r);
      UuidsExtend(Pick(init).selected, r);
      UuidsExtend(Pick(init).rest, r);
    }
  }

  // ---- draining a queue by repeated selection ----

  /** The batches sent for a queue, in order. */
  function Batches(rows: seq<Row>): seq<seq<Row>>
    decreases |rows|
  {
    if rows == [] then []
    else
      PickPartitions(rows);
      [Pick(rows).selected] + Batches(Pick(rows).rest)
  }

  function Flatten(batches: seq<seq<Row>>): seq<Row> {
    if batches == [] then [] else batches[0] + Flatten(batches[1..])
  }

  /** How many rows belong to one user. */
  function Count(rows: seq<Row>, uid: int): nat {
    if rows == [] then 0
    else Count(rows[..|rows| - 1], uid) + if rows[|rows| - 1].uid == uid then 1 else 0
  }

  /** No user has more than `m` rows. */
  ghost predicate AtMostPerUser(rows: seq<Row>, m: nat) {
    forall uid :: Count(rows, uid) <= m
  }

  lemma {:induction false} CountAppend(a: seq<Row>, r: Row, uid: int)
    ensures Count(a + [r], uid) == Count(a, uid) + if r.uid == uid then 1 else 0
  {
    assert (a + [r])[..|a|] == a;
  }

  lemma {:induction false} CountPositive(rows: seq<Row>, uid: int)
    ensures 0 < Count(rows, uid) <==> uid in Uids(rows)
    decreases |rows|
  {
    if rows != [] {
      var init, r := rows[..|rows| - 1], rows[|rows| - 1];
      CountPositive(init, uid);
      UidsExtend(init, r);
      assert rows == init + [r];
    }
  }

  lemma {:induction false} PickCounts(rows: seq<Row>, uid: int)
    ensures Count(Pick(rows).selected, uid) + Count(Pick(rows).rest, uid) == Count(rows, uid)
    decreases |rows|
  {
    if rows != [] {
      var init, r := rows[..|rows| - 1], rows[|rows| - 1];
      PickCounts(init, uid);
      CountAppend(Pick(init).selected, r, uid);
      CountAppend(Pick(init).rest, r, uid);
    }
  }

  /** A batch that is not full contains every user of the queue. */
  lemma {:induction false} ShortBatchTakesEveryUser(rows: seq<Row>)
    requires |Pick(rows).selected| < MAX_TRAFFIC_ROWS
    ensures Uids(Pick(rows).selected) == Uids(rows)
    decreases |rows|
  {
    if rows != [] {
      var init, r := rows[..|rows| - 1], rows[|rows| - 1];
      var p := Pick(init);
      PickSizes(init);
      ShortBatchTakesEveryUser(init);
      UidsExtend(init, r);
      UidsExtend(p.selected, r);
      assert rows == init + [r];
    }
  }

  lemma UidsExtend(rows: seq<Row>, r: Row)
    ensures Uids(rows + [r]) == Uids(rows) + {r.uid}
  {
    assert forall q :: q in rows + [r] <==> q in rows || q == r;
  }

  /** Repeated selection sends every row exactly once, in well-formed batches. */
  lemma {:induction false} BatchesDrainTheQueue(rows: seq<Row>)
    ensures multiset(Flatten(Batches(rows))) == multiset(rows)
    ensures forall b :: b in Batches(rows) ==> 0 < |b| <= MAX_TRAFFIC_ROWS && DistinctUids(b)
    decreases |rows|
  {
    if rows != [] {
      PickPartitions(rows);
      BatchesDrainTheQueue(Pick(rows).rest);
      var bs := Batches(rows);
      assert bs[1..] == Batches(Pick(rows).rest);
      assert Flatten(bs) == Pick(rows).selected + Flatten(bs[1..]);
    }
  }

  /** A queue of n rows with at most m rows per user needs at most n / 500 + m batches. */
  lemma {:induction false} BatchesAreFew(rows: seq<Row>, m: nat)
    requires AtMostPerUser(rows, m)
    ensures |Batches(rows)| <= |rows| / MAX_TRAFFIC_ROWS + m
    decreases |rows|
  {
    if rows != [] {
      var p := Pick(rows);
      PickPartitions(rows);
      if |p.selected| == MAX_TRAFFIC_ROWS {
        forall uid
          ensures Count(p.rest, uid) <= m
        {
          PickCounts(rows, uid);
          assert Count(rows, uid) <= m;
        }
        BatchesAreFew(p.rest, m);
        assert |rows| / MAX_TRAFFIC_ROWS == |p.rest| / MAX_TRAFFIC_ROWS + 1;
      } else {
        SelectionTakesOneOfEach(rows, m);
        BatchesAreFew(p.rest, m - 1);
        assert |p.rest| / MAX_TRAFFIC_ROWS <= |rows| / MAX_TRAFFIC_ROWS;
      }
    }
  }

  lemma SelectionTakesOneOfEach(rows: seq<Row>, m: nat)
    requires rows != [] && |Pick(rows).selected| < MAX_TRAFFIC_ROWS
    requires AtMostPerUser(rows, m)
    ensures 0 < m && AtMostPerUser(Pick(rows).rest, m - 1)
  {
    var p := Pick(rows);
    ShortBatchTakesEveryUser(rows);
    assert rows[0].uid in Uids(rows);
    CountPositive(rows, rows[0].uid);
    assert Count(rows, rows[0].uid) <= m;
    forall uid
      ensures Count(p.rest, uid) <= m - 1
    {
      PickCounts(rows, uid);
      assert Count(rows, uid) <= m;
      CountPositive(p.selected, uid);
      CountPositive(rows, uid);
    }
  }
}
