/** Arithmetic of the shutdown drain (api/v2board/traffic.go, PersistTraffic): the bytes that are
    neither in the pending batch nor in the buffer. */
module DrainTotals {
  import opened TrafficTypes
  import opened Batching
  import opened Totals
  import opened OutboxMachine

  /** With one pending row per counter, the overlap loop subtracts at most once. */
  lemma {:induction false} OverlapNone(r: Row, pending: seq<Row>)
    requires r.uuid !in Uuids(pending)
    ensures WithoutOverlap(r, pending) == r
    decreases |pending|
  {
    if pending != [] {
      var init, p := pending[..|pending| - 1], pending[|pending| - 1];
      assert p in pending && p.uuid in Uuids(pending);
      assert Uuids(init) <= Uuids(pending);
      OverlapNone(r, init);
    }
  }

  lemma {:induction false} OverlapOnce(r: Row, pending: seq<Row>, p: Row)
    requires DistinctUuids(pending) && p in pending && p.uuid == r.uuid && p.uid == r.uid
    ensures WithoutOverlap(r, pending) == r.(up := r.up - p.up, down := r.down - p.down)
    decreases |pending|
  {
    var init, z := pending[..|pending| - 1], pending[|pending| - 1];
    assert pending == init + [z];
    DistinctUuidsSplit(init, [z]);
    assert z in [z] && z.uuid in Uuids([z]);
    if p in init {
      assert p.uuid in Uuids(init);
      OverlapOnce(r, init, p);
    } else {
      OverlapNone(r, init);
    }
  }

  lemma {:induction false} OverlapKeepsIdentity(r: Row, pending: seq<Row>)
    ensures WithoutOverlap(r, pending).uuid == r.uuid && WithoutOverlap(r, pending).uid == r.uid
    decreases |pending|
  {
    if pending != [] {
      OverlapKeepsIdentity(r, pending[..|pending| - 1]);
    }
  }

  function Adjusted(rows: seq<Row>, pending: seq<Row>): (a: seq<Row>)
    ensures |a| == |rows|
    ensures forall i :: 0 <= i < |rows| ==> a[i] == WithoutOverlap(rows[i], pending)
  {
    seq(|rows|, i requires 0 <= i < |rows| => WithoutOverlap(rows[i], pending))
  }

  /** Dropping empty rows and UUIDs does not change a total. */
  lemma {:induction false} TailBytesAreAdjusted(rows: seq<Row>, pending: seq<Row>, uid: int, d: Direction)
    requires ConsistentTail(rows, pending)
    ensures Bytes(Tail(rows, pending), uid, d) == Bytes(Adjusted(rows, pending), uid, d)
    decreases |rows|
  {
    if rows != [] {
      var init, r := rows[..|rows| - 1], rows[|rows| - 1];
      assert r in rows;
      TailBytesAreAdjusted(init, pending, uid, d);
      assert rows == init + [r];
      TailExtend(init, r, pending);
      TailOfBytes(Tail(init, pending), r, pending, uid, d);
      AdjustedExtend(init, r, pending, uid, d);
    }
  }

  lemma AdjustedExtend(rows: seq<Row>, r: Row, pending: seq<Row>, uid: int, d: Direction)
    ensures Bytes(Adjusted(rows + [r], pending), uid, d)
         == Bytes(Adjusted(rows, pending), uid, d) + RowBytes(WithoutOverlap(r, pending), uid, d)
  {
    assert Adjusted(rows + [r], pending) == Adjusted(rows, pending) + [WithoutOverlap(r, pending)];
    BytesExtend(Adjusted(rows, pending), WithoutOverlap(r, pending), uid, d);
  }

  lemma TailOfBytes(before: seq<Row>, r: Row, pending: seq<Row>, uid: int, d: Direction)
    requires ValidRow(WithoutOverlap(r, pending))
    ensures Bytes(before + TailOf(r, pending), uid, d)
         == Bytes(before, uid, d) + RowBytes(WithoutOverlap(r, pending), uid, d)
  {
    BytesExtend(before, EraseRow(WithoutOverlap(r, pending)), uid, d);
    assert before + [] == before;
  }

  lemma {:induction false} TailIsValid(rows: seq<Row>, pending: seq<Row>)
    requires ConsistentTail(rows, pending)
    ensures ValidRows(Tail(rows, pending))
    decreases |rows|
  {
    if rows != [] {
      assert rows[|rows| - 1] in rows;
      TailIsValid(rows[..|rows| - 1], pending);
    }
  }

  /** Taking the overlap out of a counter row leaves what the counter holds after the commit. */
  lemma AdjustedRow(ram: Counters, rows: seq<Row>, pending: seq<Row>, r: Row)
    requires ValidCounters(ram) && Covered(ram, rows) && Covered(ram, pending) && "" !in ram
    requires r in rows
    ensures var rest := SubtractRows(ram, pending);
            var q := WithoutOverlap(r, pending);
            && q.uuid == r.uuid && q.uid == r.uid && r.uuid in rest && rest[r.uuid].uid == r.uid
            && ram[r.uuid].up - r.up == rest[r.uuid].up - q.up
            && ram[r.uuid].down - r.down == rest[r.uuid].down - q.down
  {
    SubtractKeepsTheRest(ram, pending);
    OverlapKeepsIdentity(r, pending);
    if r.uuid in Uuids(pending) {
      var p :| p in pending && p.uuid == r.uuid;
      OverlapOnce(r, pending, p);
      SubtractIsExact(ram, pending, p);
    } else {
      OverlapNone(r, pending);
    }
  }

  /** The drain can never run into the "inconsistent final counters" error while the captured
      rows hold at least the pending bytes. */
  lemma AdjustedIsCovered(ram: Counters, rows: seq<Row>, pending: seq<Row>)
    requires ValidCounters(ram) && Covered(ram, rows) && Covered(ram, pending) && "" !in ram
    requires ConsistentTail(rows, pending)
    ensures Covered(SubtractRows(ram, pending), Adjusted(rows, pending))
  {
    var a := Adjusted(rows, pending);
    forall i | 0 <= i < |a|
      ensures a[i].uuid == rows[i].uuid && RowCovered(SubtractRows(ram, pending), a[i])
    {
      assert rows[i] in rows;
      AdjustedRow(ram, rows, pending, rows[i]);
    }
  }

  lemma CoveredHasNoEmptyUuid(ram: Counters, rows: seq<Row>)
    requires Covered(ram, rows) && "" !in ram
    ensures "" !in Uuids(rows)
  {
  }

  /** The drained tail is at most the counters minus the pending rows that are still in them. */
  lemma TailFits(ram: Counters, rows: seq<Row>, pending: seq<Row>, uid: int, d: Direction)
    requires ValidCounters(ram) && Covered(ram, rows) && Covered(ram, pending) && "" !in ram
    requires ConsistentTail(rows, pending)
    ensures Bytes(Tail(rows, pending), uid, d) <= RamTotal(ram, uid, d) - Bytes(pending, uid, d)
  {
    var rest, a := SubtractRows(ram, pending), Adjusted(rows, pending);
    TailBytesAreAdjusted(rows, pending, uid, d);
    AdjustedIsCovered(ram, rows, pending);
    CoveredHasNoEmptyUuid(ram, pending);
    SubtractKeepsTheRest(ram, pending);
    CoveredHasNoEmptyUuid(rest, a);
    SubtractTotals(ram, pending, uid, d);
    CoveredBytes(rest, a, uid, d);
  }

  /** A complete capture is consistent: no adjusted row is negative. */
  lemma CompleteCaptureIsConsistent(ram: Counters, rows: seq<Row>, pending: seq<Row>)
    requires ValidCounters(ram) && CompleteCapture(ram, rows) && Covered(ram, pending) && "" !in ram
    ensures ConsistentTail(rows, pending)
  {
    forall r | r in rows
      ensures ValidRow(WithoutOverlap(r, pending))
    {
      AdjustedRow(ram, rows, pending, r);
      SubtractKeepsTheRest(ram, pending);
    }
  }

  lemma NothingLeft(ram: Counters, rows: seq<Row>, pending: seq<Row>, u: string)
    requires ValidCounters(ram) && CompleteCapture(ram, rows) && Covered(ram, pending) && "" !in ram
    requires ConsistentTail(rows, pending) && u in ram
    ensures var left := SubtractRows(SubtractRows(ram, pending), Adjusted(rows, pending));
            u in left && left[u].up == left[u].down == 0
  {
    var rest, a := SubtractRows(ram, pending), Adjusted(rows, pending);
    SubtractKeepsTheRest(ram, pending);
    AdjustedIsCovered(ram, rows, pending);
    SubtractKeepsTheRest(rest, a);
    if ram[u] in rows {
      var i :| 0 <= i < |rows| && rows[i] == ram[u];
      AdjustedRow(ram, rows, pending, rows[i]);
      assert a[i] in a;
      SubtractIsExact(rest, a, a[i]);
    } else {
      ZeroCounterIsUntouched(ram, rows, pending, u);
    }
  }

  lemma ZeroCounterIsUntouched(ram: Counters, rows: seq<Row>, pending: seq<Row>, u: string)
    requires ValidCounters(ram) && CompleteCapture(ram, rows) && Covered(ram, pending)
    requires u in ram && ram[u] !in rows && "" !in ram
    ensures u !in Uuids(Adjusted(rows, pending))
    ensures u in SubtractRows(ram, pending)
    ensures SubtractRows(ram, pending)[u].up == SubtractRows(ram, pending)[u].down == 0
  {
    var a := Adjusted(rows, pending);
    forall i | 0 <= i < |a|
      ensures a[i].uuid != u
    {
      OverlapKeepsIdentity(rows[i], pending);
      assert rows[i] in rows;
    }
    SubtractKeepsTheRest(ram, pending);
    if u in Uuids(pending) {
      var p :| p in pending && p.uuid == u;
      SubtractIsExact(ram, pending, p);
    }
  }

  /** A drain of a complete capture misses nothing: the tail is exactly the counters minus the
      pending rows that are still in them. */
  lemma TailIsExact(ram: Counters, rows: seq<Row>, pending: seq<Row>, uid: int, d: Direction)
    requires ValidCounters(ram) && CompleteCapture(ram, rows) && Covered(ram, pending) && "" !in ram
    ensures ConsistentTail(rows, pending)
    ensures Bytes(Tail(rows, pending), uid, d) == RamTotal(ram, uid, d) - Bytes(pending, uid, d)
  {
    CompleteCaptureIsConsistent(ram, rows, pending);
    var rest, a := SubtractRows(ram, pending), Adjusted(rows, pending);
    TailBytesAreAdjusted(rows, pending, uid, d);
    AdjustedIsCovered(ram, rows, pending);
    CoveredHasNoEmptyUuid(ram, pending);
    SubtractKeepsTheRest(ram, pending);
    CoveredHasNoEmptyUuid(rest, a);
    SubtractTotals(ram, pending, uid, d);
    SubtractTotals(rest, a, uid, d);
    SubtractKeepsTheRest(rest, a);
    forall u | u in SubtractRows(rest, a)
      ensures SubtractRows(rest, a)[u].up == SubtractRows(rest, a)[u].down == 0
    {
      NothingLeft(ram, rows, pending, u);
    }
    RamTotalZero(SubtractRows(rest, a), uid, d);
  }

  // ---- any two complete captures drain the same rows ----

  /** What one counter row adds to the tail. */
  function TailOf(r: Row, pending: seq<Row>): seq<Row> {
    var q := WithoutOverlap(r, pending);
    if q.up + q.down > 0 then [EraseRow(q)] else []
  }

  lemma TailExtend(rows: seq<Row>, r: Row, pending: seq<Row>)
    ensures Tail(rows + [r], pending) == Tail(rows, pending) + TailOf(r, pending)
  {
    assert (rows + [r])[..|rows|] == rows;
  }

  lemma {:induction false} TailAppend(a: seq<Row>, b: seq<Row>, pending: seq<Row>)
    ensures Tail(a + b, pending) == Tail(a, pending) + Tail(b, pending)
    decreases |b|
  {
    if b == [] {
      assert a + b == a;
    } else {
      assert (a + b)[..|a + b| - 1] == a + b[..|b| - 1];
      TailAppend(a, b[..|b| - 1], pending);
    }
  }

  lemma {:induction false} TailPermutation(a: seq<Row>, b: seq<Row>, pending: seq<Row>)
    requires multiset(a) == multiset(b)
    ensures multiset(Tail(a, pending)) == multiset(Tail(b, pending))
    decreases |a|
  {
    if a == [] {
      assert |multiset(b)| == 0 && b == [];
    } else {
      var init, r := a[..|a| - 1], a[|a| - 1];
      assert a == init + [r];
      assert multiset(a) == multiset(init) + multiset{r};
      assert r in multiset(b);
      var j :| 0 <= j < |b| && b[j] == r;
      RemoveOne(b, j);
      var rest := b[..j] + b[j + 1..];
      assert multiset(init) + multiset{r} == multiset(rest) + multiset{r};
      CancelOne(multiset(init), multiset(rest), r);
      CancelOne(multiset(rest), multiset(init), r);
      TailPermutation(init, b[..j] + b[j + 1..], pending);
      TailAppend(init, [r], pending);
      TailAppend(b[..j], b[j + 1..], pending);
      TailAppend(b[..j] + [r], b[j + 1..], pending);
      TailAppend(b[..j], [r], pending);
    }
  }

  function NonZeroRows(rows: seq<Row>): seq<Row> {
    if rows == [] then []
    else
      var before, r := NonZeroRows(rows[..|rows| - 1]), rows[|rows| - 1];
      if r.up + r.down != 0 then before + [r] else before
  }

  lemma {:induction false} NonZeroMembers(rows: seq<Row>)
    ensures forall r :: r in NonZeroRows(rows) <==> r in rows && r.up + r.down != 0
    ensures DistinctUuids(rows) ==> DistinctUuids(NonZeroRows(rows))
    decreases |rows|
  {
    if rows != [] {
      var init, r := rows[..|rows| - 1], rows[|rows| - 1];
      NonZeroMembers(init);
      assert rows == init + [r];
      UuidsExtend(init, r);
      UuidsExtend(NonZeroRows(init), r);
    }
  }

  /** Rows that are zero, and stay so without the overlap, drain nothing. */
  lemma {:induction false} ZeroRowsDrainNothing(rows: seq<Row>, pending: seq<Row>)
    requires forall r :: r in rows && r.up + r.down == 0 ==>
               WithoutOverlap(r, pending).up + WithoutOverlap(r, pending).down <= 0
    ensures Tail(rows, pending) == Tail(NonZeroRows(rows), pending)
    decreases |rows|
  {
    if rows != [] {
      var init, r := rows[..|rows| - 1], rows[|rows| - 1];
      assert r in rows;
      assert forall q :: q in init ==> q in rows;
      ZeroRowsDrainNothing(init, pending);
      assert rows == init + [r];
      TailExtend(init, r, pending);
      if r.up + r.down != 0 {
        TailExtend(NonZeroRows(init), r, pending);
      } else {
        assert TailOf(r, pending) == [];
      }
    }
  }

  lemma CompleteTail(ram: Counters, rows: seq<Row>, pending: seq<Row>)
    requires ValidCounters(ram) && CompleteCapture(ram, rows) && Covered(ram, pending) && "" !in ram
    ensures Tail(rows, pending) == Tail(NonZeroRows(rows), pending)
  {
    forall r | r in rows && r.up + r.down == 0
      ensures WithoutOverlap(r, pending).up + WithoutOverlap(r, pending).down <= 0
    {
      if r.uuid in Uuids(pending) {
        var p :| p in pending && p.uuid == r.uuid;
        OverlapOnce(r, pending, p);
      } else {
        OverlapNone(r, pending);
      }
    }
    ZeroRowsDrainNothing(rows, pending);
  }

  /** However the counters are enumerated, a complete capture drains the same rows. */
  lemma TailIsDetermined(ram: Counters, a: seq<Row>, b: seq<Row>, pending: seq<Row>)
    requires ValidCounters(ram) && "" !in ram && Covered(ram, pending)
    requires CompleteCapture(ram, a) && CompleteCapture(ram, b)
    ensures multiset(Tail(a, pending)) == multiset(Tail(b, pending))
  {
    CompleteTail(ram, a, pending);
    CompleteTail(ram, b, pending);
    NonZeroMembers(a);
    NonZeroMembers(b);
    var x, y := NonZeroRows(a), NonZeroRows(b);
    forall r
      ensures multiset(x)[r] == multiset(y)[r]
    {
      OncePresent(x, r);
      OncePresent(y, r);
      assert r in multiset(x) <==> r in x;
      assert r in multiset(y) <==> r in y;
    }
    TailPermutation(x, y, pending);
  }
}
