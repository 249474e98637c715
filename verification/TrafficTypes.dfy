/** The records of the traffic outbox (api/v2board/traffic.go, api/v2board/traffic_isolation.go)
    and the byte totals that the accounting properties are stated with. */
module TrafficTypes {

  import opened Options

  datatype Direction = Upload | Download

  const MAX_TRAFFIC_ROWS: nat := 500
  const MAX_BUFFERED_ROWS: nat := 200000
  const MAX_TRAFFIC_HOLDS: nat := 16
  const TRAFFIC_HOLD_TTL: int := 7 * 24 * 60 * 60
  const TWO_64: nat := 0x1_0000_0000_0000_0000
  const MAX_INT64: nat := 0x7fff_ffff_ffff_ffff

  /** `uuid` lives in memory only: it is neither on the wire nor on disk. */
  datatype Row = Row(uid: int, up: int, down: int, uuid: string)

  /** `origin` is a history label that names one captured batch through retries and rebases.
      No operation branches on it and it is not part of the request body. */
  datatype Batch = Batch(sequence: nat, rows: seq<Row>, origin: nat)

  /** The exact bytes of a request. The digest is an injective function of them, so
      comparing digests is comparing bodies. */
  datatype Body = Body(sequence: nat, rows: seq<Row>)

  datatype Resolution = Resolution(next: nat, at: int)
  datatype Hold = Hold(at: int, batch: Batch)

  datatype ReportState = ReportState(
    version: int,
    next: nat,
    pending: Option<Batch>,
    buffered: seq<Row>,
    failures: int,
    resolution: Option<Resolution>,
    held: seq<Hold>)

  // ---- what survives serialisation ----

  function EraseRow(r: Row): Row { r.(uuid := "") }

  function EraseRows(rows: seq<Row>): (e: seq<Row>)
    ensures |e| == |rows|
    ensures forall i :: 0 <= i < |rows| ==> e[i] == EraseRow(rows[i])
  {
    seq(|rows|, i requires 0 <= i < |rows| => EraseRow(rows[i]))
  }

  function EraseBatch(b: Batch): Batch { b.(rows := EraseRows(b.rows)) }

  function EraseHolds(held: seq<Hold>): (e: seq<Hold>)
    ensures |e| == |held|
    ensures forall i :: 0 <= i < |held| ==> e[i] == Hold(held[i].at, EraseBatch(held[i].batch))
  {
    seq(|held|, i requires 0 <= i < |held| => Hold(held[i].at, EraseBatch(held[i].batch)))
  }

  /** The file written for a state: the JSON encoding keeps everything but the UUIDs. */
  function Erase(s: ReportState): ReportState {
    s.(pending := if s.pending.Some? then Some(EraseBatch(s.pending.value)) else None,
       buffered := EraseRows(s.buffered),
       held := EraseHolds(s.held))
  }

  function BodyOf(b: Batch): Body { Body(b.sequence, EraseRows(b.rows)) }

  lemma EraseTwice(rows: seq<Row>)
    ensures EraseRows(EraseRows(rows)) == EraseRows(rows)
  {
  }

  /** Saving a state and loading it back gives the same file again. */
  lemma SaveLoadRoundTrip(s: ReportState)
    ensures Erase(Erase(s)) == Erase(s)
  {
    EraseTwice(s.buffered);
    if s.pending.Some? {
      EraseTwice(s.pending.value.rows);
    }
    forall i | 0 <= i < |s.held|
      ensures EraseHolds(EraseHolds(s.held))[i] == EraseHolds(s.held)[i]
    {
      EraseTwice(s.held[i].batch.rows);
    }
  }

  // ---- uint64 ----

  /** Go's `x + 1` on a uint64. */
  function Inc64(x: nat): nat { (x + 1) % TWO_64 }

  // ---- validity ----

  predicate ValidRow(r: Row) { 0 < r.uid && 0 <= r.up && 0 <= r.down }

  predicate ValidRows(rows: seq<Row>) { forall r :: r in rows ==> ValidRow(r) }

  predicate ValidHold(h: Hold) { 0 < h.at && 0 < |h.batch.rows| <= MAX_TRAFFIC_ROWS }

  /** validTrafficIsolation */
  predicate ValidIsolation(s: ReportState) {
    && 0 <= s.failures <= 3
    && |s.held| <= MAX_TRAFFIC_HOLDS
    && (s.resolution.Some? ==>
          s.pending.Some? && 0 < s.resolution.value.next <= MAX_INT64 && 0 < s.resolution.value.at)
    && forall h :: h in s.held ==> ValidHold(h)
  }

  /** What loadReportState demands of a file before it adopts it. */
  predicate Loadable(s: ReportState) {
    && s.version == 1
    && 0 < s.next < TWO_64
    && |s.buffered| <= MAX_BUFFERED_ROWS
    && ValidIsolation(s)
    && (s.pending.Some? ==>
          && s.pending.value.sequence == s.next
          && 0 < |s.pending.value.rows| <= MAX_TRAFFIC_ROWS)
  }

  // ---- byte totals ----

  function RowBytes(r: Row, uid: int, d: Direction): int {
    if r.uid != uid then 0 else if d.Upload? then r.up else r.down
  }

  /** Bytes of one user in one direction over a list of rows. */
  function Bytes(rows: seq<Row>, uid: int, d: Direction): int {
    if rows == [] then 0
    else Bytes(rows[..|rows| - 1], uid, d) + RowBytes(rows[|rows| - 1], uid, d)
  }

  lemma {:induction false} BytesAppend(a: seq<Row>, b: seq<Row>, uid: int, d: Direction)
    ensures Bytes(a + b, uid, d) == Bytes(a, uid, d) + Bytes(b, uid, d)
    decreases |b|
  {
    if b == [] {
      assert a + b == a;
    } else {
      assert (a + b)[..|a + b| - 1] == a + b[..|b| - 1];
      BytesAppend(a, b[..|b| - 1], uid, d);
    }
  }

  lemma BytesExtend(rows: seq<Row>, r: Row, uid: int, d: Direction)
    ensures Bytes(rows + [r], uid, d) == Bytes(rows, uid, d) + RowBytes(r, uid, d)
  {
    assert (rows + [r])[..|rows|] == rows;
  }

  lemma {:induction false} BytesErase(rows: seq<Row>, uid: int, d: Direction)
    ensures Bytes(EraseRows(rows), uid, d) == Bytes(rows, uid, d)
    decreases |rows|
  {
    if rows != [] {
      assert EraseRows(rows)[..|rows| - 1] == EraseRows(rows[..|rows| - 1]);
      BytesErase(rows[..|rows| - 1], uid, d);
    }
  }

  lemma {:induction false} BytesNonNegative(rows: seq<Row>, uid: int, d: Direction)
    requires ValidRows(rows)
    ensures 0 <= Bytes(rows, uid, d)
    decreases |rows|
  {
    if rows != [] {
      assert rows[|rows| - 1] in rows;
      BytesNonNegative(rows[..|rows| - 1], uid, d);
    }
  }
}
