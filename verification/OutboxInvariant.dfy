/** The inductive invariant of the outbox protocol: how the panel's history, the requests in
    flight, the two views of the disk, client memory and the RAM counters fit together. */
module OutboxInvariant {
  import opened Options
  import opened TrafficTypes
  import opened Batching
  import opened Totals
  import opened Panel
  import opened AuditHolds
  import opened OutboxMachine

  // ---- disk and memory agree ----

  function FileOf(x: Option<ReportState>): Option<ReportState> {
    if x.Some? then Some(Erase(x.value)) else None
  }

  /** Once the client has loaded or written the file, the visible file is the state of its last rename. */
  predicate Agrees(s: Sys) {
    s.client.Some? && Latest(s.client.value).Some? ==> s.visible == FileOf(Latest(s.client.value))
  }

  // ---- the client's flags ----

  /** `recovered` needs a pending batch or a buffer to be about, `committed` a pending batch, and
      rows of the current capture are only queued while nothing recovered is being sent. */
  predicate FlagsOk(m: Mem) {
    && (m.committed ==> m.outbox.Some? && m.outbox.value.pending.Some?)
    && (m.recovered ==> m.outbox.Some? && (m.outbox.value.pending.Some? || m.outbox.value.buffered != []))
    && (m.queued != [] ==> m.outbox.Some? && Latest(m).value.buffered == [] && !m.recovered && !m.draining)
    && (m.draining ==> m.outbox.Some? && ValidRows(m.drainBase))
  }

  // ---- every file is one the client would load ----

  predicate Healthy(x: ReportState) {
    && Loadable(x)
    && ValidRows(x.buffered)
    && (x.pending.Some? ==> ValidRows(x.pending.value.rows))
  }

  // ---- batches and requests ----

  predicate Genuine(issued: seq<seq<Row>>, b: Batch) {
    0 < b.sequence && b.origin < |issued| && issued[b.origin] == EraseRows(b.rows)
  }

  /** The sequences from `lo` up to, not including, `hi` are taken. */
  predicate Barred(log: seq<Entry>, rows: seq<Row>, lo: nat, hi: nat) {
    forall j: nat :: lo <= j < hi ==> TakenAt(log, rows, j)
  }

  /** Between a pending batch and a request for the same batch, in either direction, the panel gave
      every sequence to another report; and a batch with a durable marker is not pending without one. */
  predicate PendingOk(log: seq<Entry>, posts: set<Batch>, issued: seq<seq<Row>>, marked: set<nat>, x: ReportState) {
    x.pending.Some? ==>
      var b := x.pending.value;
      && Genuine(issued, b)
      && (forall p :: p in posts && p.origin == b.origin ==>
            && Barred(log, issued[b.origin], p.sequence, b.sequence)
            && Barred(log, issued[b.origin], b.sequence, p.sequence))
      && (b.origin in marked ==> x.resolution.Some?)
  }

  predicate CellOk(log: seq<Entry>, posts: set<Batch>, issued: seq<seq<Row>>, marked: set<nat>,
                   x: Option<ReportState>) {
    x.Some? ==> x.value == Erase(x.value) && Healthy(x.value) && PendingOk(log, posts, issued, marked, x.value)
  }

  /** The same between the two files. */
  predicate FilesOk(log: seq<Entry>, issued: seq<seq<Row>>, x: Option<ReportState>, y: Option<ReportState>) {
    x.Some? && y.Some? && x.value.pending.Some? && y.value.pending.Some?
      && x.value.pending.value.origin == y.value.pending.value.origin < |issued| ==>
      var b, c := x.value.pending.value, y.value.pending.value;
      Barred(log, issued[b.origin], b.sequence, c.sequence) && Barred(log, issued[b.origin], c.sequence, b.sequence)
  }

  /** Of two requests for one batch, the one with the lower sequence can no longer be charged. */
  predicate PostsOk(log: seq<Entry>, posts: set<Batch>, issued: seq<seq<Row>>, launched: set<nat>) {
    && (forall p :: p in posts ==> Genuine(issued, p) && p.origin in launched)
    && (forall p, q :: p in posts && q in posts && p.origin == q.origin ==>
          Barred(log, issued[p.origin], p.sequence, q.sequence))
  }

  predicate LogOk(log: seq<Entry>, posts: set<Batch>) {
    forall i :: 0 <= i < |log| ==> log[i].batch.sequence == i + 1 && (log[i].mine ==> log[i].batch in posts)
  }

  predicate RepliesOk(log: seq<Entry>, replies: set<Reply>) {
    forall r :: r in replies ==> Truthful(log, r)
  }

  predicate HistoryOk(issued: seq<seq<Row>>, launched: set<nat>, marked: set<nat>, durable: Option<ReportState>) {
    && (forall i :: i in launched ==> i < |issued|)
    && (forall i :: i in marked ==> i < |issued|)
    && (forall i :: 0 <= i < |issued| ==> ValidRows(issued[i]))
    && MarkedBy(durable) <= marked
  }

  // ---- rows of the durable buffer ----

  predicate SamePending(x: Option<ReportState>, y: Option<ReportState>) {
    && x.Some? && y.Some? && x.value.pending.Some? && y.value.pending.Some?
    && x.value.pending.value.origin == y.value.pending.value.origin
  }

  /** The file offers a pending batch that was never sent. */
  predicate Unlaunched(x: Option<ReportState>, launched: set<nat>) {
    x.Some? && x.value.pending.Some? && x.value.pending.value.origin !in launched
  }

  /** What was taken, and of that what was lent to the pending batch and what was spent, are rows of
      the durable buffer; the rest of that buffer is in the visible one. */
  predicate RowsOk(visible: Option<ReportState>, durable: Option<ReportState>, launched: set<nat>,
                   taken: seq<Row>, lent: seq<Row>, spent: seq<Row>) {
    && multiset(taken) <= multiset(BufferOf(durable))
    && multiset(BufferOf(durable)) <= multiset(BufferOf(visible)) + multiset(taken)
    && multiset(spent) + (if Unlaunched(visible, launched) then multiset(lent) else multiset{}) <= multiset(taken)
    && multiset(lent) <= multiset(taken)
    && (lent != [] ==>
          && visible.Some? && visible.value.pending.Some? && !SamePending(visible, durable)
          && multiset(lent) <= multiset(visible.value.pending.value.rows))
    && (lent != [] && !Unlaunched(visible, launched) ==> spent != [])
  }

  /** A batch that is not durable takes every row it can. */
  predicate LentOk(visible: Option<ReportState>, durable: Option<ReportState>, taken: seq<Row>, lent: seq<Row>) {
    visible.Some? && visible.value.pending.Some? && !SamePending(visible, durable) ==>
      forall r :: r in visible.value.pending.value.rows ==> r in lent || r !in Owed(durable, taken)
  }

  /** Rows that were spent were sent. */
  predicate SpentOk(posts: set<Batch>, spent: seq<Row>, repeated: seq<Row>) {
    && (forall r :: r in spent ==> exists p :: p in posts && r in p.rows)
    && ValidRows(repeated)
  }

  /** While draining, the visible buffer is the base, or the base and the counters behind the pending
      batch. */
  ghost predicate DrainOk(client: Option<Mem>, visible: Option<ReportState>, ram: Counters) {
    client.Some? && client.value.draining ==> Drained(client.value.drainBase, LiveRows(client.value), visible, ram)
  }

  ghost predicate Drained(base: seq<Row>, live: seq<Row>, visible: Option<ReportState>, ram: Counters) {
    || multiset(BufferOf(visible)) == multiset(EraseRows(base))
    || exists rows :: CompleteCapture(ram, rows)
         && multiset(BufferOf(visible)) == multiset(EraseRows(base)) + multiset(Tail(rows, live))
  }

  // ---- counters ----

  predicate CountersOk(s: Sys) {
    && ValidCounters(s.ram) && ValidCounters(s.counted) && "" !in s.counted
    && (forall u :: u in s.ram ==> u in s.counted && s.counted[u].uid == s.ram[u].uid)
    && (s.client.None? ==> s.ram == map[])
  }

  /** Bytes that are promised to a batch of this runtime are still in its counters. */
  predicate LiveOk(s: Sys) {
    s.client.Some? ==> Covered(s.ram, LiveRows(s.client.value) + s.client.value.queued)
  }

  // ---- the ledger ----

  /** Bytes of the batches whose origin is in `which`. */
  function IssuedTotal(issued: seq<seq<Row>>, which: set<nat>, uid: int, d: Direction): int {
    if issued == [] then 0
    else
      var n := |issued| - 1;
      IssuedTotal(issued[..n], which, uid, d) + if n in which then Bytes(issued[n], uid, d) else 0
  }

  function ChargedOrigins(log: seq<Entry>): set<nat> {
    set i | 0 <= i < |log| && log[i].mine :: log[i].batch.origin
  }

  /** Bytes charged to a user for this node's reports. */
  function ChargedTotal(log: seq<Entry>, uid: int, d: Direction): int {
    if log == [] then 0
    else
      var e := log[|log| - 1];
      ChargedTotal(log[..|log| - 1], uid, d) + if e.mine then Bytes(e.batch.rows, uid, d) else 0
  }

  /** Bytes a file still promises: its buffer, and its pending batch unless that was already sent. */
  function Unsent(launched: set<nat>, x: Option<ReportState>, uid: int, d: Direction): int {
    if x.Some? && x.value.pending.Some? && x.value.pending.value.origin !in launched
    then Bytes(x.value.pending.value.rows, uid, d)
    else 0
  }

  function BufferBytes(x: Option<ReportState>, uid: int, d: Direction): int {
    if x.Some? then Bytes(x.value.buffered, uid, d) else 0
  }

  /** While draining, the buffer on file already contains the counters; its base does not. */
  function BaseBytes(s: Sys, uid: int, d: Direction): int {
    if s.client.Some? && s.client.value.draining then Bytes(s.client.value.drainBase, uid, d)
    else BufferBytes(s.visible, uid, d)
  }

  function LiveBytes(s: Sys, uid: int, d: Direction): int {
    if s.client.Some? then Bytes(LiveRows(s.client.value), uid, d) else 0
  }

  /** Bytes of the pending batch, not yet sent, that the durable file promises too. */
  function PromisedTwice(visible: Option<ReportState>, durable: Option<ReportState>, launched: set<nat>, lent: seq<Row>,
                         uid: int, d: Direction): int {
    if !Unlaunched(visible, launched) then 0
    else if SamePending(visible, durable) then Bytes(visible.value.pending.value.rows, uid, d)
    else Bytes(lent, uid, d)
  }

  /** What the durable file promises beyond the visible one and beyond what was spent: the price of a
      power loss that brings it back. */
  function DebtOf(visible: Option<ReportState>, durable: Option<ReportState>, launched: set<nat>,
                  taken: seq<Row>, lent: seq<Row>, spent: seq<Row>, uid: int, d: Direction): int {
    Bytes(taken, uid, d) - Bytes(spent, uid, d) + Unsent(launched, durable, uid, d)
      - PromisedTwice(visible, durable, launched, lent, uid, d)
  }

  function Debt(s: Sys, uid: int, d: Direction): int {
    DebtOf(s.visible, s.durable, s.launched, s.taken, s.lent, s.spent, uid, d)
  }

  /** What may be charged: the bytes counted, and once more the rows that were sent and that a power
      loss then put back into the buffer. */
  ghost function Allowance(s: Sys, uid: int, d: Direction): int {
    RamTotal(s.counted, uid, d) + Bytes(s.repeated, uid, d)
  }

  ghost predicate FileBacked(s: Sys, debt: int, uid: int, d: Direction) {
    IssuedTotal(s.issued, s.launched, uid, d) + Unsent(s.launched, s.visible, uid, d)
      + BufferBytes(s.visible, uid, d) + debt
      <= Allowance(s, uid, d)
  }

  ghost predicate MemoryBacked(s: Sys, debt: int, uid: int, d: Direction) {
    IssuedTotal(s.issued, s.launched, uid, d) + Unsent(s.launched, s.visible, uid, d) + BaseBytes(s, uid, d)
      + RamTotal(s.ram, uid, d) - LiveBytes(s, uid, d) + debt
      <= Allowance(s, uid, d)
  }

  /** Sent, still promised and still counted bytes never exceed the allowance, whichever file is found. */
  ghost predicate Ledger(s: Sys, uid: int, d: Direction) {
    && ChargedTotal(s.log, uid, d) == IssuedTotal(s.issued, ChargedOrigins(s.log), uid, d)
    && FileBacked(s, 0, uid, d) && FileBacked(s, Debt(s, uid, d), uid, d)
    && MemoryBacked(s, 0, uid, d) && MemoryBacked(s, Debt(s, uid, d), uid, d)
  }

  ghost predicate LedgerOk(s: Sys) { forall uid, d :: Ledger(s, uid, d) }

  /** Files, memory, requests and answers fit together. */
  predicate FilesFit(s: Sys) {
    && Agrees(s)
    && (s.client.Some? ==> FlagsOk(s.client.value))
    && CellOk(s.log, s.posts, s.issued, s.marked, s.visible)
    && CellOk(s.log, s.posts, s.issued, s.marked, s.durable)
    && FilesOk(s.log, s.issued, s.visible, s.durable)
    && PostsOk(s.log, s.posts, s.issued, s.launched)
    && LogOk(s.log, s.posts)
    && RepliesOk(s.log, s.replies)
    && HistoryOk(s.issued, s.launched, s.marked, s.durable)
  }

  /** The rows of the two buffers fit together. */
  ghost predicate RowsFit(s: Sys) {
    && RowsOk(s.visible, s.durable, s.launched, s.taken, s.lent, s.spent)
    && LentOk(s.visible, s.durable, s.taken, s.lent)
    && SpentOk(s.posts, s.spent, s.repeated)
    && DrainOk(s.client, s.visible, s.ram)
  }

  ghost predicate Inv(s: Sys) { FilesFit(s) && RowsFit(s) && CountersOk(s) && LiveOk(s) && LedgerOk(s) }

  // ---- facts about files ----

  lemma EraseRowsValid(rows: seq<Row>)
    ensures ValidRows(EraseRows(rows)) <==> ValidRows(rows)
  {
    if ValidRows(EraseRows(rows)) {
      forall r | r in rows
        ensures ValidRow(r)
      {
        var i :| 0 <= i < |rows| && rows[i] == r;
        assert EraseRows(rows)[i] in EraseRows(rows);
      }
    }
    if ValidRows(rows) {
      forall i | 0 <= i < |rows|
        ensures ValidRow(EraseRows(rows)[i])
      {
        assert rows[i] in rows;
      }
    }
  }

  lemma EraseHoldsValid(held: seq<Hold>)
    ensures (forall h :: h in EraseHolds(held) ==> ValidHold(h)) <==> (forall h :: h in held ==> ValidHold(h))
  {
    if forall h :: h in EraseHolds(held) ==> ValidHold(h) {
      forall h | h in held
        ensures ValidHold(h)
      {
        var i :| 0 <= i < |held| && held[i] == h;
        assert EraseHolds(held)[i] in EraseHolds(held);
      }
    }
    if forall h :: h in held ==> ValidHold(h) {
      forall i | 0 <= i < |held|
        ensures ValidHold(EraseHolds(held)[i])
      {
        assert held[i] in held;
      }
    }
  }

  /** A file is healthy exactly when the state it was written from is. */
  lemma EraseHealthy(x: ReportState)
    ensures Healthy(Erase(x)) <==> Healthy(x)
  {
    EraseRowsValid(x.buffered);
    EraseHoldsValid(x.held);
    if x.pending.Some? {
      EraseRowsValid(x.pending.value.rows);
    }
  }

  lemma EraseBytes(launched: set<nat>, x: ReportState, uid: int, d: Direction)
    ensures Unsent(launched, Some(Erase(x)), uid, d) == Unsent(launched, Some(x), uid, d)
    ensures BufferBytes(Some(Erase(x)), uid, d) == BufferBytes(Some(x), uid, d)
  {
    BytesErase(x.buffered, uid, d);
    if x.pending.Some? {
      BytesErase(x.pending.value.rows, uid, d);
    }
  }

  lemma PendingErase(log: seq<Entry>, posts: set<Batch>, issued: seq<seq<Row>>, marked: set<nat>, x: ReportState)
    ensures PendingOk(log, posts, issued, marked, Erase(x)) <==> PendingOk(log, posts, issued, marked, x)
  {
    if x.pending.Some? {
      EraseTwice(x.pending.value.rows);
    }
  }

  /** The state in memory is as good as the file written from it. */
  lemma OutboxIsHealthy(s: Sys)
    requires FilesFit(s) && s.client.Some? && Ready(s.client.value)
    ensures Healthy(s.client.value.outbox.value)
    ensures PendingOk(s.log, s.posts, s.issued, s.marked, s.client.value.outbox.value)
  {
    var x := s.client.value.outbox.value;
    EraseHealthy(x);
    PendingErase(s.log, s.posts, s.issued, s.marked, x);
  }

  // ---- facts about totals ----

  lemma {:induction false} IssuedTotalAdd(issued: seq<seq<Row>>, which: set<nat>, i: nat, uid: int, d: Direction)
    requires i < |issued|
    ensures IssuedTotal(issued, which + {i}, uid, d)
         == IssuedTotal(issued, which, uid, d) + if i in which then 0 else Bytes(issued[i], uid, d)
    decreases |issued|
  {
    var n := |issued| - 1;
    if i < n {
      IssuedTotalAdd(issued[..n], which, i, uid, d);
    } else {
      IssuedTotalIgnores(issued[..n], which, i, uid, d);
    }
  }

  lemma {:induction false} IssuedTotalIgnores(issued: seq<seq<Row>>, which: set<nat>, i: nat, uid: int, d: Direction)
    requires |issued| <= i
    ensures IssuedTotal(issued, which + {i}, uid, d) == IssuedTotal(issued, which, uid, d)
    decreases |issued|
  {
    if issued != [] {
      IssuedTotalIgnores(issued[..|issued| - 1], which, i, uid, d);
    }
  }

  lemma {:induction false} IssuedTotalMonotone(issued: seq<seq<Row>>, a: set<nat>, b: set<nat>, uid: int, d: Direction)
    requires a <= b && forall i :: 0 <= i < |issued| ==> ValidRows(issued[i])
    ensures 0 <= IssuedTotal(issued, a, uid, d) <= IssuedTotal(issued, b, uid, d)
    decreases |issued|
  {
    if issued != [] {
      IssuedTotalMonotone(issued[..|issued| - 1], a, b, uid, d);
      BytesNonNegative(issued[|issued| - 1], uid, d);
    }
  }

  lemma IssuedTotalExtend(issued: seq<seq<Row>>, rows: seq<Row>, which: set<nat>, uid: int, d: Direction)
    requires |issued| !in which
    ensures IssuedTotal(issued + [rows], which, uid, d) == IssuedTotal(issued, which, uid, d)
  {
    assert (issued + [rows])[..|issued|] == issued;
  }

  /** More rows, more bytes. */
  lemma {:induction false} BytesOfSome(a: seq<Row>, b: seq<Row>, uid: int, d: Direction)
    requires multiset(a) <= multiset(b) && ValidRows(b)
    ensures Bytes(a, uid, d) <= Bytes(b, uid, d)
    decreases |a|
  {
    if a == [] {
      BytesNonNegative(b, uid, d);
    } else {
      var init, r := a[..|a| - 1], a[|a| - 1];
      assert a == init + [r];
      assert multiset(a) == multiset(init) + multiset{r};
      assert r in multiset(b);
      var j :| 0 <= j < |b| && b[j] == r;
      RemoveOne(b, j);
      CancelOne(multiset(init), multiset(b[..j] + b[j + 1..]), r);
      BytesOfSome(init, b[..j] + b[j + 1..], uid, d);
      BytesAppend(b[..j], b[j + 1..], uid, d);
      BytesAppend(b[..j] + [r], b[j + 1..], uid, d);
      BytesExtend(b[..j], r, uid, d);
    }
  }

  lemma ChargedTotalExtend(log: seq<Entry>, e: Entry, uid: int, d: Direction)
    ensures ChargedTotal(log + [e], uid, d)
         == ChargedTotal(log, uid, d) + if e.mine then Bytes(e.batch.rows, uid, d) else 0
    ensures ChargedOrigins(log + [e]) == ChargedOrigins(log) + if e.mine then {e.batch.origin} else {}
  {
    assert (log + [e])[..|log|] == log;
    forall o
      ensures o in ChargedOrigins(log + [e]) <==> o in ChargedOrigins(log) || (e.mine && o == e.batch.origin)
    {
      if o in ChargedOrigins(log) {
        var i :| 0 <= i < |log| && log[i].mine && log[i].batch.origin == o;
        assert (log + [e])[i] == log[i];
      }
      if e.mine && o == e.batch.origin {
        assert (log + [e])[|log|] == e;
      }
    }
  }
}
