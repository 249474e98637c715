/** Byte totals of the RAM counters and the saturating subtraction that commits a report
    (common/counter/traffic.go, core/officialhy2/manager.go). */
module Totals {
  import opened TrafficTypes
  import opened Batching

  /** The RAM counters of one runtime, by UUID. */
  type Counters = map<string, Row>

  /** Bytes of one user over all counters. */
  ghost function RamTotal(m: Counters, uid: int, d: Direction): int
    decreases |m|
  {
    if m == map[] then 0
    else var u :| u in m; RowBytes(m[u], uid, d) + RamTotal(m - {u}, uid, d)
  }

  lemma {:induction false} RamTotalWithout(m: Counters, u: string, uid: int, d: Direction)
    requires u in m
    ensures RamTotal(m, uid, d) == RowBytes(m[u], uid, d) + RamTotal(m - {u}, uid, d)
    decreases |m|
  {
    var v :| v in m && RamTotal(m, uid, d) == RowBytes(m[v], uid, d) + RamTotal(m - {v}, uid, d);
    if u != v {
      RamTotalWithout(m - {v}, u, uid, d);
      RamTotalWithout(m - {u}, v, uid, d);
      assert m - {v} - {u} == m - {u} - {v};
    }
  }

  lemma RamTotalUpdate(m: Counters, u: string, r: Row, uid: int, d: Direction)
    ensures RamTotal(m[u := r], uid, d)
         == RamTotal(m, uid, d) + RowBytes(r, uid, d) - (if u in m then RowBytes(m[u], uid, d) else 0)
  {
    RamTotalWithout(m[u := r], u, uid, d);
    assert m[u := r] - {u} == m - {u};
    if u in m {
      RamTotalWithout(m, u, uid, d);
    } else {
      assert m - {u} == m;
    }
  }

  /** Every counter is a well-formed row filed under its own UUID. */
  predicate ValidCounters(m: Counters) { forall u :: u in m ==> m[u].uuid == u && ValidRow(m[u]) }

  lemma {:induction false} RamTotalNonNegative(m: Counters, uid: int, d: Direction)
    requires ValidCounters(m)
    ensures 0 <= RamTotal(m, uid, d)
    decreases |m|
  {
    if m != map[] {
      var u :| u in m;
      RamTotalWithout(m, u, uid, d);
      RamTotalNonNegative(m - {u}, uid, d);
    }
  }

  lemma {:induction false} RamTotalZero(m: Counters, uid: int, d: Direction)
    requires forall u :: u in m ==> m[u].up == m[u].down == 0
    ensures RamTotal(m, uid, d) == 0
    decreases |m|
  {
    if m != map[] {
      var u :| u in m;
      RamTotalWithout(m, u, uid, d);
      RamTotalZero(m - {u}, uid, d);
    }
  }

  // ---- rows that are backed by the counters ----

  predicate RowCovered(m: Counters, r: Row) {
    && ValidRow(r)
    && r.uuid in m
    && m[r.uuid].uid == r.uid && r.up <= m[r.uuid].up && r.down <= m[r.uuid].down
  }

  /** Distinct counters hold at least the bytes of these rows. */
  predicate Covered(m: Counters, rows: seq<Row>) {
    DistinctUuids(rows) && forall r :: r in rows ==> RowCovered(m, r)
  }

  /** A capture that reads every non-zero counter. */
  predicate CompleteCapture(ram: Counters, rows: seq<Row>) {
    && Covered(ram, rows)
    && (forall r :: r in rows ==> ram[r.uuid] == r)
    && (forall u :: u in ram && ram[u].up + ram[u].down != 0 ==> ram[u] in rows)
  }

  lemma CoveredSplit(m: Counters, a: seq<Row>, b: seq<Row>)
    ensures Covered(m, a + b) <==> Covered(m, a) && Covered(m, b) && Uuids(a) !! Uuids(b)
  {
    DistinctUuidsSplit(a, b);
    assert forall r :: r in a + b <==> r in a || r in b;
  }

  lemma CoveredExtend(m: Counters, rows: seq<Row>, z: Row)
    ensures Covered(m, rows + [z]) <==> Covered(m, rows) && RowCovered(m, z) && z.uuid !in Uuids(rows)
    ensures Uuids(rows + [z]) == Uuids(rows) + {z.uuid}
  {
    UuidsExtend(rows, z);
    assert forall r :: r in rows + [z] <==> r in rows || r == z;
  }

  /** A reordering of covered rows is covered: two rows of one counter would be one row. */
  lemma CoveredPermutation(m: Counters, a: seq<Row>, b: seq<Row>)
    requires Covered(m, a) && multiset(a) == multiset(b)
    ensures Covered(m, b)
  {
    forall r
      ensures r in b <==> r in a
    {
      assert r in multiset(b) <==> r in multiset(a);
    }
    forall i, j | 0 <= i < j < |b|
      ensures b[i].uuid != b[j].uuid
    {
      if b[i].uuid == b[j].uuid {
        OneRowPerUuid(a, b[i], b[j]);
        TwicePresent(b, i, j);
        OncePresent(a, b[i]);
      }
    }
  }

  lemma OneRowPerUuid(a: seq<Row>, x: Row, y: Row)
    requires DistinctUuids(a) && x in a && y in a && x.uuid == y.uuid
    ensures x == y
  {
  }

  lemma TwicePresent(b: seq<Row>, i: nat, j: nat)
    requires i < j < |b| && b[i] == b[j]
    ensures multiset(b)[b[i]] >= 2
  {
    assert b == b[..i] + [b[i]] + b[i + 1..j] + [b[j]] + b[j + 1..];
  }

  lemma RemoveOne(b: seq<Row>, j: nat)
    requires j < |b|
    ensures multiset(b) == multiset(b[..j] + b[j + 1..]) + multiset{b[j]}
    ensures b == b[..j] + [b[j]] + b[j + 1..]
  {
    assert b == b[..j] + [b[j]] + b[j + 1..];
  }

  lemma CancelOne(a: multiset<Row>, b: multiset<Row>, r: Row)
    requires a + multiset{r} <= b + multiset{r}
    ensures a <= b
  {
    forall x
      ensures a[x] <= b[x]
    {
      assert (a + multiset{r})[x] <= (b + multiset{r})[x];
    }
  }

  lemma {:induction false} OncePresent(a: seq<Row>, x: Row)
    requires DistinctUuids(a)
    ensures multiset(a)[x] <= 1
    decreases |a|
  {
    if a != [] {
      var init, r := a[..|a| - 1], a[|a| - 1];
      OncePresent(init, x);
      assert a == init + [r];
      assert r !in init;
    }
  }

  // ---- the saturating subtraction ----

  function Saturating(current: int, n: int): int {
    if n <= 0 then current else if current - n < 0 then 0 else current - n
  }

  /** TrafficCounter.Subtract */
  function SubtractRow(m: Counters, r: Row): Counters {
    if r.uuid in m
    then m[r.uuid := m[r.uuid].(up := Saturating(m[r.uuid].up, r.up), down := Saturating(m[r.uuid].down, r.down))]
    else m
  }

  /** CommitUserTraffic: rows without a UUID are skipped. */
  function SubtractRows(m: Counters, rows: seq<Row>): Counters {
    if rows == [] then m
    else
      var before, r := SubtractRows(m, rows[..|rows| - 1]), rows[|rows| - 1];
      if r.uuid == "" then before else SubtractRow(before, r)
  }

  lemma {:induction false} SubtractKeepsTheRest(m: Counters, rows: seq<Row>)
    requires ValidCounters(m)
    ensures ValidCounters(SubtractRows(m, rows))
    ensures SubtractRows(m, rows).Keys == m.Keys
    ensures forall u :: u in m ==> SubtractRows(m, rows)[u].uid == m[u].uid
    ensures forall u :: u in m && u !in Uuids(rows) ==> SubtractRows(m, rows)[u] == m[u]
    decreases |rows|
  {
    if rows != [] {
      var init, r := rows[..|rows| - 1], rows[|rows| - 1];
      SubtractKeepsTheRest(m, init);
      assert rows == init + [r];
      assert r in rows && r.uuid in Uuids(rows);
      assert Uuids(init) <= Uuids(rows);
    }
  }

  lemma SubtractRowAt(m: Counters, z: Row, u: string)
    requires u in m
    ensures u in SubtractRow(m, z)
    ensures u != z.uuid ==> SubtractRow(m, z)[u] == m[u]
    ensures u == z.uuid && 0 <= z.up <= m[u].up && 0 <= z.down <= m[u].down ==>
              SubtractRow(m, z)[u] == m[u].(up := m[u].up - z.up, down := m[u].down - z.down)
  {
  }

  /** On covered rows the clamp at zero never acts: each counter loses exactly its row. */
  lemma {:induction false} SubtractIsExact(m: Counters, rows: seq<Row>, r: Row)
    requires ValidCounters(m) && Covered(m, rows) && r in rows && r.uuid != ""
    ensures r.uuid in SubtractRows(m, rows)
    ensures SubtractRows(m, rows)[r.uuid]
         == m[r.uuid].(up := m[r.uuid].up - r.up, down := m[r.uuid].down - r.down)
    decreases |rows|
  {
    var init, z := rows[..|rows| - 1], rows[|rows| - 1];
    assert rows == init + [z];
    CoveredExtend(m, init, z);
    SubtractKeepsTheRest(m, init);
    var before := SubtractRows(m, init);
    SubtractRowAt(before, z, r.uuid);
    if r in init {
      SubtractIsExact(m, init, r);
      assert r.uuid in Uuids(init) && r.uuid != z.uuid;
    } else {
      assert r == z && before[r.uuid] == m[r.uuid];
    }
  }

  lemma {:induction false} SubtractTotals(m: Counters, rows: seq<Row>, uid: int, d: Direction)
    requires ValidCounters(m) && Covered(m, rows) && "" !in Uuids(rows)
    ensures RamTotal(SubtractRows(m, rows), uid, d) == RamTotal(m, uid, d) - Bytes(rows, uid, d)
    decreases |rows|
  {
    if rows != [] {
      var init, r := rows[..|rows| - 1], rows[|rows| - 1];
      assert rows == init + [r];
      CoveredExtend(m, init, r);
      SubtractTotals(m, init, uid, d);
      SubtractKeepsTheRest(m, init);
      var before := SubtractRows(m, init);
      RamTotalUpdate(before, r.uuid, SubtractRow(before, r)[r.uuid], uid, d);
    }
  }

  lemma CoveredBytes(m: Counters, rows: seq<Row>, uid: int, d: Direction)
    requires ValidCounters(m) && Covered(m, rows) && "" !in Uuids(rows)
    ensures 0 <= Bytes(rows, uid, d) <= RamTotal(m, uid, d)
  {
    SubtractTotals(m, rows, uid, d);
    SubtractKeepsTheRest(m, rows);
    RamTotalNonNegative(SubtractRows(m, rows), uid, d);
    BytesNonNegative(rows, uid, d);
  }
}
