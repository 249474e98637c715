/** What goes wrong behind a file that is not durable. loadReportState adopts the file it finds
    without synchronising the directory. If a process goes away after a rename whose directory sync
    failed, the next one may send a batch from a file that a later power loss takes back; the rows of
    that batch are then in the buffer again. */
module UnsyncedAdoption {
  import opened Options
  import opened TrafficTypes
  import opened Batching
  import opened Totals
  import opened Panel
  import opened AuditHolds
  import opened OutboxMachine
  import opened OutboxInvariant
  import OutboxSafety

  const NEW_NODE := Sys([], {}, {}, None, None, None, map[], false, map[], [], {}, {}, [], [], [], [])

  /** Some run of a new node leads to `s`, and no power loss in it takes back more than one spent row. */
  ghost predicate Reaches(s: Sys) {
    exists acts :: Exec(NEW_NODE, acts) == Some(s) && TakesBackAtMost(1, NEW_NODE, acts)
  }

  /** No power loss takes back a rename while more than `k` rows are spent. */
  predicate TakesBackAtMost(k: nat, s: Sys, acts: seq<Action>)
    requires Exec(s, acts).Some?
  {
    acts == [] ||
    var before, a := acts[..|acts| - 1], acts[|acts| - 1];
    TakesBackAtMost(k, s, before) && (a == PowerLoss(false) ==> |Exec(s, before).value.spent| <= k)
  }

  lemma Then(s: Sys, a: Action)
    requires Reaches(s) && Enabled(s, a) && (a == PowerLoss(false) ==> |s.spent| <= 1)
    ensures Reaches(Step(s, a))
  {
    var acts :| Exec(NEW_NODE, acts) == Some(s) && TakesBackAtMost(1, NEW_NODE, acts);
    assert (acts + [a])[..|acts|] == acts;
    assert Exec(NEW_NODE, acts + [a]) == Some(Step(s, a));
  }

  // ---- the moves of the run, for any state ----

  function Started(s: Sys, x: ReportState): Sys {
    s.(client := Some(FRESH_CLIENT.(outbox := Some(x), recovered := x.pending.Some?)))
  }

  lemma Restart(s: Sys, x: ReportState)
    requires Reaches(s) && s.client.None? && s.visible == Some(x) && Loadable(x)
    ensures Reaches(Started(s, x))
  {
    Then(s, Boot);
    Then(Step(s, Boot), Load);
  }

  lemma Quit(s: Sys)
    requires Reaches(s)
    ensures Reaches(s.(client := None, ram := map[], posted := false))
  {
    Then(s, Exit);
  }

  /** A rename without the directory sync, of a state whose rows carry no UUIDs. */
  function Replaced(s: Sys, y: ReportState): Sys
    requires s.client.Some?
  {
    s.(visible := Some(y), posted := false, client := Some(s.client.value.(unsynced := Some(y))),
       lent := if y.pending.None? then [] else s.lent)
  }

  lemma Replace(s: Sys, c: Change, y: ReportState)
    requires Reaches(s) && s.client.Some? && CanChange(s, s.client.value, c) && Erase(y) == y
    requires !c.FromBuffer? && !c.FromCounters? && NextState(s.client.value, c, |s.issued|) == y
    ensures Reaches(Replaced(s, y))
  {
    Then(s, Rename(c, false));
  }

  function Formed(s: Sys, y: ReportState, selected: seq<Row>): Sys
    requires s.client.Some?
  {
    s.(visible := Some(y), posted := false, client := Some(s.client.value.(unsynced := Some(y), recovered := true)),
       issued := s.issued + [selected], taken := s.taken + Among(selected, Owed(s.durable, s.taken)),
       lent := Among(selected, Owed(s.durable, s.taken)))
  }

  lemma FormBatch(s: Sys, x: ReportState, p: Picked, y: ReportState)
    requires Reaches(s) && s.client.Some? && s.client.value.outbox == Some(x) && s.client.value.unsynced.None?
    requires !s.client.value.draining && s.client.value.queued == []
    requires x.pending.None? && x.buffered != [] && ValidRows(x.buffered) && Pick(x.buffered) == p
    requires EraseRows(p.selected) == p.selected && Erase(y) == y
    requires y == ReportState(1, x.next, Some(Batch(x.next, p.selected, |s.issued|)), p.rest, 0, None, x.held)
    ensures Reaches(Formed(s, y, p.selected))
  {
    Then(s, TakeBuffer);
    Then(Step(s, TakeBuffer), Rename(FromBuffer, false));
  }

  function Flushed(s: Sys, y: ReportState): Sys
    requires s.client.Some? && s.client.value.unsynced.Some?
  {
    s.(durable := Some(y), client := Some(Synced(s.client.value)), marked := s.marked + MarkedBy(Some(y)),
       taken := [], lent := [], spent := [])
  }

  lemma Flush(s: Sys, y: ReportState)
    requires Reaches(s) && s.client.Some? && s.client.value.unsynced == Some(y) && s.visible == Some(y)
    ensures Reaches(Flushed(s, y))
  {
    Then(s, SyncDirectory);
  }

  function Posted(s: Sys, b: Batch): Sys {
    s.(posts := s.posts + {b}, launched := s.launched + {b.origin}, posted := true,
       spent := if b.origin in s.launched then s.spent else s.spent + s.lent,
       log := Charge(s.log, b, true), replies := s.replies + {Answer(s.log, b)})
  }

  lemma Post(s: Sys, b: Batch)
    requires Reaches(s) && s.client.Some? && HasPending(s.client.value) && !s.client.value.draining
    requires s.client.value.outbox.value.pending == Some(b) && s.client.value.outbox.value.resolution.None?
    requires EraseBatch(b) == b
    ensures Reaches(Posted(s, b))
  {
    Then(s, Send);
    Then(Step(s, Send), Deliver(b));
  }

  function Sent(s: Sys, y: ReportState, b: Batch): Sys
    requires s.client.Some?
  {
    Posted(Formed(s, y, b.rows).(taken := [], lent := [], spent := []), b).(durable := Some(y),
      client := Some(s.client.value.(outbox := Some(y), recovered := true)))
  }

  lemma FormAndPost(s: Sys, x: ReportState, p: Picked, y: ReportState)
    requires Reaches(s) && s.client.Some? && s.client.value.outbox == Some(x) && s.client.value.unsynced.None?
    requires !s.client.value.draining && s.client.value.queued == [] && !s.client.value.committed
    requires x.pending.None? && x.buffered != [] && ValidRows(x.buffered) && Pick(x.buffered) == p
    requires EraseRows(p.selected) == p.selected && Erase(y) == y
    requires y == ReportState(1, x.next, Some(Batch(x.next, p.selected, |s.issued|)), p.rest, 0, None, x.held)
    ensures Reaches(Sent(s, y, y.pending.value))
  {
    FormBatch(s, x, p, y);
    Flush(Formed(s, y, p.selected), y);
    Post(Flushed(Formed(s, y, p.selected), y), y.pending.value);
    SentInSteps(s, y, y.pending.value);
  }

  lemma SentInSteps(s: Sys, y: ReportState, b: Batch)
    requires s.client.Some? && s.client.value.unsynced.None? && y.pending == Some(b) && y.resolution.None?
    ensures Posted(Flushed(Formed(s, y, b.rows), y), b) == Sent(s, y, b)
  {
    assert s.marked + {} == s.marked;
  }

  /** A recovering process whose memory and files agree on `x`. */
  function InStep(s: Sys, x: ReportState): Sys {
    s.(visible := Some(x), durable := Some(x),
      client := Some(FRESH_CLIENT.(outbox := Some(x), recovered := x.pending.Some?)),
       taken := [], lent := [], spent := [])
  }

  lemma SaveInStep(s: Sys, x: ReportState, c: Change, y: ReportState)
    requires Reaches(InStep(s, x)) && CanChange(InStep(s, x), InStep(s, x).client.value, c)
    requires Erase(y) == y && !c.FromBuffer? && !c.FromCounters? && x.pending.Some?
    requires NextState(InStep(s, x).client.value, c, |s.issued|) == y
    ensures Reaches(InStep(s.(marked := s.marked + MarkedBy(Some(y)), posted := false), y))
  {
    Replace(InStep(s, x), c, y);
    Flush(Replaced(InStep(s, x), y), y);
  }

  lemma HoldIsKept(b: Batch)
    requires EraseBatch(b) == b
    ensures EraseHolds([Hold(1, b)]) == [Hold(1, b)]
    ensures Trim([] + [Hold(1, b)], 1) == [Hold(1, b)]
  {
    var h := Hold(1, b);
    assert [] + [h] == [h];
    assert forall q :: q in [h] ==> q == h;
    AllUnexpired([h], 1);
  }

  lemma CountOneFailure(s: Sys, x: ReportState)
    requires Reaches(InStep(s, x)) && Erase(x) == x && x.pending.Some? && x.resolution.None? && x.failures == 0
    requires s.posted
    ensures Reaches(InStep(s.(posted := false), x.(failures := 1)))
  {
    var y := x.(failures := 1);
    assert Erase(y) == y;
    SaveInStep(s, x, CountFailure, y);
    assert s.(marked := s.marked + MarkedBy(Some(y))) == s;
  }

  lemma MarkBatch(s: Sys, x: ReportState, proof: Reply)
    requires Reaches(InStep(s, x)) && Erase(x) == x && x.pending.Some? && x.resolution.None?
    requires proof in s.replies && CanIsolate(proof, x.pending.value)
    ensures Reaches(InStep(s.(marked := s.marked + {x.pending.value.origin}, posted := false),
                           x.(resolution := Some(Resolution(proof.next, 1)))))
  {
    var y := x.(resolution := Some(Resolution(proof.next, 1)));
    assert Erase(y) == y;
    SaveInStep(s, x, Mark(proof.next, 1, Some(proof)), y);
  }

  lemma FinishMarked(s: Sys, x: ReportState, y: ReportState)
    requires Reaches(InStep(s, x)) && Erase(x) == x && x.pending.Some? && x.resolution.Some? && x.held == []
    requires x.resolution.value.at == 1 && !s.posted
    requires y == ReportState(1, x.resolution.value.next, None, x.buffered, 0, None, [Hold(1, x.pending.value)])
    ensures Reaches(InStep(s, y))
  {
    HoldIsKept(x.pending.value);
    assert Erase(y) == y;
    SaveInStep(s, x, Finish(1), y);
    assert s.(marked := s.marked + MarkedBy(Some(y))) == s;
  }

  /** The verified cursor is ahead: count the failure, mark, and finish without resubmission. */
  lemma Isolate(s: Sys, x: ReportState, b: Batch, proof: Reply)
    requires Reaches(InStep(s, x)) && Erase(x) == x && s.posted && proof in s.replies && CanIsolate(proof, b)
    requires x == ReportState(1, b.sequence, Some(b), x.buffered, 0, None, [])
    ensures Reaches(InStep(s.(marked := s.marked + {b.origin}, posted := false),
                           ReportState(1, proof.next, None, x.buffered, 0, None, [Hold(1, b)])))
  {
    var failed := x.(failures := 1);
    var s1 := s.(posted := false);
    CountOneFailure(s, x);
    assert Erase(failed) == failed;
    MarkBatch(s1, failed, proof);
    FinishMarked(s1.(marked := s.marked + {b.origin}), failed.(resolution := Some(Resolution(proof.next, 1))),
                 ReportState(1, proof.next, None, x.buffered, 0, None, [Hold(1, b)]));
  }

  // ---- the run, for two buffered rows of one user ----

  function File(next: nat, pending: Option<Batch>, buffered: seq<Row>): ReportState {
    ReportState(1, next, pending, buffered, 0, None, [])
  }

  /** What the run uses of the rows: the batches formed from them, and that files keep them. */
  predicate Usable(a: Row, b: Row) {
    && ValidRow(a) && ValidRow(b) && a.uid == b.uid
    && Pick([a, b]) == Picked([a], [b]) && Pick([b]) == Picked([b], [])
    && EraseRows([a]) == [a] && EraseRows([b]) == [b] && EraseRows([a, b]) == [a, b]
  }

  /** No process runs, `visible` is what the next one will find, a power loss would bring back
      `durable`, the panel has accepted `accepted` reports. */
  predicate Stopped(s: Sys, visible: ReportState, durable: ReportState, accepted: nat) {
    s.client.None? && s.visible == Some(visible) && s.durable == Some(durable) && |s.log| == accepted
  }

  lemma NoRowsNoHolds()
    ensures EraseRows([]) == [] && EraseHolds([]) == []
    ensures forall now :: Trim([], now) == []
  {
  }

  /** First batch: formed, synchronised, sent and charged; the sync behind its acknowledgement fails,
      and the process exits. */
  lemma FirstBatch(s: Sys, a: Row, b: Row) returns (t: Sys)
    requires Reaches(s) && Usable(a, b) && Stopped(s, File(1, None, [a, b]), File(1, None, [a, b]), 0)
    requires s.repeated == [] && s.issued == []
    ensures Reaches(t) && Stopped(t, File(2, None, [b]), File(1, Some(Batch(1, [a], 0)), [b]), 1)
    ensures t.log[0].mine && t.log[0].batch.rows == [a] && t.counted == s.counted
    ensures t.taken == [] && t.spent == [] && t.repeated == [] && t.issued == [[a]]
    ensures t.launched == s.launched + {0}
  {
    NoRowsNoHolds();
    var x, y := File(1, None, [a, b]), File(1, Some(Batch(1, [a], 0)), [b]);
    Restart(s, x);
    FormAndPost(Started(s, x), x, Picked([a], [b]), y);
    var s1 := Sent(Started(s, x), y, y.pending.value);
    FirstIsCharged(s, x, y);
    t := AdvanceAndExit(s1, y, File(2, None, [b]));
  }

  lemma FirstIsCharged(s: Sys, x: ReportState, y: ReportState)
    requires s.log == [] && s.issued == [] && y.pending.Some? && y.pending.value.sequence == 1
    ensures var t := Sent(Started(s, x), y, y.pending.value);
            && t.log == [Entry(y.pending.value, true)] && Ack(1, BodyOf(y.pending.value)) in t.replies
            && t.taken == [] && t.lent == [] && t.spent == [] && t.repeated == s.repeated && t.counted == s.counted
            && t.issued == [y.pending.value.rows] && t.launched == s.launched + {y.pending.value.origin}
            && t.durable == Some(y)
            && t.client == Some(FRESH_CLIENT.(outbox := Some(y), recovered := true))
  {
  }

  lemma AdvanceAndExit(s: Sys, x: ReportState, y: ReportState) returns (t: Sys)
    requires Reaches(s) && s.client == Some(FRESH_CLIENT.(outbox := Some(x), recovered := true))
    requires x.pending.Some? && x.resolution.None? && x.held == []
    requires Ack(x.pending.value.sequence, BodyOf(x.pending.value)) in s.replies
    requires y == File(Inc64(x.pending.value.sequence), None, x.buffered) && y.next != 0 && Erase(y) == y
    ensures Reaches(t) && t == s.(visible := Some(y), client := None, ram := map[], posted := false, lent := [])
  {
    NoRowsNoHolds();
    Replace(s, Advance(1), y);
    Quit(Replaced(s, y));
    t := s.(visible := Some(y), client := None, ram := map[], posted := false, lent := []);
  }

  lemma OneRowOwed(s: Sys, b: Row)
    requires BufferOf(s.durable) == [b] && s.taken == []
    ensures Among([b], Owed(s.durable, s.taken)) == [b]
  {
    assert multiset([b]) == multiset{b} && b in Owed(s.durable, s.taken);
    assert [b][..0] == [];
  }

  /** The next process forms the second batch; again the sync fails and the process exits. */
  lemma FormSecond(s: Sys, a: Row, b: Row, durable: ReportState) returns (t: Sys)
    requires Reaches(s) && Usable(a, b) && Stopped(s, File(2, None, [b]), durable, 1)
    ensures Reaches(t) && Stopped(t, File(2, Some(Batch(2, [b], |s.issued|)), []), durable, 1)
    ensures t.log == s.log && t.counted == s.counted && t.spent == s.spent && t.repeated == s.repeated
    ensures t.issued == s.issued + [[b]] && t.launched == s.launched
    ensures s.taken == [] && durable.buffered == [b] ==> t.lent == [b]
  {
    NoRowsNoHolds();
    var x, y := File(2, None, [b]), File(2, Some(Batch(2, [b], |s.issued|)), []);
    Restart(s, x);
    FormBatch(Started(s, x), x, Picked([b], []), y);
    if s.taken == [] && durable.buffered == [b] {
      OneRowOwed(s, b);
    }
    Quit(Formed(Started(s, x), y, [b]));
    t := Formed(Started(s, x), y, [b]).(client := None, ram := map[], posted := false);
  }

  /** A third process adopts that file, sends the batch, and the power fails. */
  lemma SendAndLosePower(s: Sys, b: Row, batch: Batch, durable: ReportState) returns (t: Sys)
    requires Reaches(s) && Stopped(s, File(2, Some(batch), []), durable, 1)
    requires batch.sequence == 2 && batch.rows == [b] && EraseRows([b]) == [b]
    requires s.spent == [] && s.repeated == [] && s.lent == [b] && batch.origin !in s.launched
    ensures Reaches(t) && Stopped(t, durable, durable, 2)
    ensures t.log == s.log + [Entry(batch, true)] && t.counted == s.counted
    ensures t.issued == s.issued && t.repeated == [b] && t.taken == [] && t.lent == [] && t.spent == []
    ensures t.launched == s.launched + {batch.origin}
  {
    NoRowsNoHolds();
    var x := File(2, Some(batch), []);
    Restart(s, x);
    Post(Started(s, x), batch);
    var s1 := Posted(Started(s, x), batch);
    assert s1.spent == [b];
    Then(s1, PowerLoss(false));
    t := DoPowerLoss(s1, false);
  }

  /** The first batch is sent again, finds the cursor ahead and is isolated. */
  lemma FirstBatchAgain(s: Sys, a: Row, b: Row) returns (t: Sys)
    requires Reaches(s) && Usable(a, b)
    requires Stopped(s, File(1, Some(Batch(1, [a], 0)), [b]), File(1, Some(Batch(1, [a], 0)), [b]), 2)
    requires s.taken == [] && s.lent == [] && s.spent == []
    ensures Reaches(InStep(t, File(3, None, [b]).(held := [Hold(1, Batch(1, [a], 0))])))
    ensures t.log == s.log && t.counted == s.counted && t.issued == s.issued && t.repeated == s.repeated
  {
    NoRowsNoHolds();
    var batch := Batch(1, [a], 0);
    var x := File(1, Some(batch), [b]);
    var s1 := SendAgain(s, x, batch);
    Isolate(s1, x, batch, Answer(s.log, batch));
    t := s1.(marked := s1.marked + {batch.origin}, posted := false);
  }

  lemma SendAgain(s: Sys, x: ReportState, batch: Batch) returns (t: Sys)
    requires Reaches(s) && Stopped(s, x, x, 2) && Loadable(x) && x.resolution.None? && EraseBatch(batch) == batch
    requires batch.sequence == 1 && x.pending == Some(batch) && s.taken == [] && s.lent == [] && s.spent == []
    ensures Reaches(t) && t == InStep(t, x) && t.posted && Answer(s.log, batch) in t.replies
    ensures t.log == s.log && t.counted == s.counted && t.issued == s.issued && t.repeated == s.repeated
  {
    Restart(s, x);
    Post(Started(s, x), batch);
    t := Posted(Started(s, x), batch);
    assert t.spent == [];
  }

  /** The row of the second batch is sent under the next sequence and charged again. */
  lemma SecondRowAgain(s: Sys, a: Row, b: Row, hold: Hold) returns (t: Sys)
    requires Usable(a, b) && EraseHolds([hold]) == [hold] && |s.log| == 2
    requires Reaches(InStep(s, File(3, None, [b]).(held := [hold])))
    ensures Reaches(t) && t.counted == s.counted && t.repeated == s.repeated && t.issued == s.issued + [[b]]
    ensures |t.log| == 3 && t.log[..2] == s.log && t.log[2].mine && t.log[2].batch.rows == [b]
  {
    NoRowsNoHolds();
    var x := File(3, None, [b]).(held := [hold]);
    var batch := Batch(3, [b], |s.issued|);
    var y := x.(pending := Some(batch), buffered := []);
    FormAndPost(InStep(s, x), x, Picked([b], []), y);
    t := Sent(InStep(s, x), y, batch);
    assert t.log == s.log + [Entry(batch, true)];
  }

  lemma {:induction false} ThreeCharges(log: seq<Entry>, a: Row, b: Row)
    requires |log| == 3 && log[0].mine && log[1].mine && log[2].mine
    requires log[0].batch.rows == [a] && log[1].batch.rows == [b] && log[2].batch.rows == [b]
    requires a.uid == b.uid
    ensures ChargedTotal(log, a.uid, Upload) == a.up + b.up + b.up
  {
    ChargedTotalExtend(log[..2], log[2], a.uid, Upload);
    ChargedTotalExtend(log[..1], log[1], a.uid, Upload);
    ChargedTotalExtend([], log[0], a.uid, Upload);
    assert log == log[..2] + [log[2]] && log[..2] == log[..1] + [log[1]] && log[..1] == [] + [log[0]];
    assert [a][..0] == [] && [b][..0] == [];
    assert Bytes([a], a.uid, Upload) == a.up;
    assert Bytes([b], a.uid, Upload) == b.up;
  }

  // ---- a clean shutdown that leaves such a buffer ----

  const A := Row(1, 5, 0, "a")
  const B := Row(1, 7, 0, "b")
  const EA := Row(1, 5, 0, "")
  const EB := Row(1, 7, 0, "")
  const COUNTED := map["a" := A, "b" := B]

  /** No batch has been formed yet. */
  predicate NoBatches(s: Sys) {
    s.issued == [] && s.launched == {} && s.taken == [] && s.lent == [] && s.spent == [] && s.repeated == []
  }

  predicate Untouched(s: Sys) { s.counted == COUNTED && NoBatches(s) }

  lemma RowsAreUsable()
    ensures Usable(EA, EB)
  {
    assert [EA, EB][..1] == [EA] && [EA][..0] == [] && [EB][..0] == [];
    assert Pick([EA]) == Picked([EA], []);
    assert EA in [EA] && EA.uid in Uids([EA]);
  }

  lemma EvaluateTail()
    ensures Tail([A, B], []) == [EA, EB] && ConsistentTail([A, B], []) && CompleteCapture(COUNTED, [A, B])
  {
    assert [A, B][..1] == [A] && [A][..0] == [];
    assert Tail([A], []) == [EA];
  }

  /** Count 5 + 7 bytes, and persist them at shutdown. */
  lemma CleanShutdown() returns (s: Sys)
    ensures Reaches(s) && Stopped(s, File(1, None, [EA, EB]), File(1, None, [EA, EB]), 0) && Untouched(s)
  {
    NoRowsNoHolds();
    assert Exec(NEW_NODE, []) == Some(NEW_NODE) && TakesBackAtMost(1, NEW_NODE, []);
    Then(NEW_NODE, Boot);
    var s1 := NEW_NODE.(client := Some(FRESH_CLIENT));
    var empty := File(1, None, []);
    Replace(s1, Init(1), empty);
    var s2 := Replaced(s1, empty);
    Flush(s2, empty);
    s := CountAndDrain(Flushed(s2, empty));
  }

  lemma CountAndDrain(s: Sys) returns (t: Sys)
    requires Reaches(s) && s.client == Some(FRESH_CLIENT.(outbox := Some(File(1, None, []))))
    requires s.ram == map[] && s.counted == map[] && s.log == [] && NoBatches(s)
    ensures Reaches(t) && Stopped(t, File(1, None, [EA, EB]), File(1, None, [EA, EB]), 0) && Untouched(t)
  {
    Then(s, Log("a", 1, 5, 0));
    var s1 := s.(ram := map["a" := A], counted := map["a" := A]);
    Then(s1, Log("b", 1, 7, 0));
    var s2 := s.(ram := COUNTED, counted := COUNTED);
    assert Step(s1, Log("b", 1, 7, 0)) == s2;
    Then(s2, StartDrain);
    t := FinishDrain(s2.(client := Some(s2.client.value.(draining := true))));
  }

  lemma FinishDrain(s: Sys) returns (t: Sys)
    requires Reaches(s) && s.client == Some(FRESH_CLIENT.(outbox := Some(File(1, None, [])), draining := true))
    requires s.ram == COUNTED && s.counted == COUNTED && s.log == [] && NoBatches(s)
    ensures Reaches(t) && Stopped(t, File(1, None, [EA, EB]), File(1, None, [EA, EB]), 0) && Untouched(t)
  {
    NoRowsNoHolds();
    EvaluateTail();
    RowsAreUsable();
    var y := File(1, None, [EA, EB]);
    DrainInto(s, [A, B], [EA, EB], y);
    t := SyncAndQuit(Replaced(s, y), y);
  }

  lemma DrainInto(s: Sys, rows: seq<Row>, tail: seq<Row>, y: ReportState)
    requires Reaches(s) && s.client == Some(FRESH_CLIENT.(outbox := Some(File(1, None, [])), draining := true))
    requires CompleteCapture(s.ram, rows) && ConsistentTail(rows, []) && Tail(rows, []) == tail
    requires y == File(1, None, tail) && Erase(y) == y && |tail| <= MAX_BUFFERED_ROWS
    ensures Reaches(Replaced(s, y))
  {
    assert LiveRows(s.client.value) == [] && [] + tail == tail;
    Replace(s, Drain(rows), y);
  }

  lemma SyncAndQuit(s: Sys, y: ReportState) returns (t: Sys)
    requires Reaches(s) && s.client.Some? && s.client.value.unsynced == Some(y) && s.visible == Some(y)
    requires y.pending.None?
    ensures Reaches(t)
    ensures t == s.(durable := Some(y), client := None, ram := map[], posted := false, taken := [], lent := [],
            spent := [])
  {
    Flush(s, y);
    Quit(Flushed(s, y));
    t := Flushed(s, y).(client := None, ram := map[], posted := false);
    assert s.marked + {} == s.marked;
  }

  // ---- the findings ----

  /** There is a run in which the client sends a batch that is not in the durable file. */
  lemma WriteAheadCanFail()
    ensures exists s :: Reaches(s) && Enabled(s, Send) && s.durable.Some? && s.durable.value.pending.None?
  {
    var s0 := CleanShutdown();
    RowsAreUsable();
    NoRowsNoHolds();
    var x, y := File(1, None, [EA, EB]), File(1, Some(Batch(1, [EA], 0)), [EB]);
    Restart(s0, x);
    FormBatch(Started(s0, x), x, Picked([EA], [EB]), y);
    var s1 := Formed(Started(s0, x), y, [EA]);
    Quit(s1);
    var s2 := s1.(client := None, ram := map[], posted := false);
    Restart(s2, y);
    assert Enabled(Started(s2, y), Send);
  }

  /** The bound of AtMostOnce is tight. There is a run, with one spent row put back by one power
      loss, in which user 1 is charged 19 upload bytes although only 12 were ever counted: exactly the
      7 bytes of that row too many. */
  lemma BytesCanBeChargedTwice()
    ensures Initial(NEW_NODE)
    ensures exists s :: Reaches(s) && ChargedTotal(s.log, 1, Upload) == 19 && RamTotal(s.counted, 1, Upload) == 12
                        && OutboxSafety.RepeatedTotal(s, 1, Upload) == 7
  {
    var s := ChargedTwice();
    TwoCounters();
    RepeatedBytes();
  }

  lemma ChargedTwice() returns (s: Sys)
    ensures Reaches(s) && s.counted == COUNTED && s.repeated == [EB]
    ensures ChargedTotal(s.log, 1, Upload) == 19
  {
    s := CleanShutdown();
    RowsAreUsable();
    s := FirstBatch(s, EA, EB);
    s := LoseTheSecond(s);
    s := FirstBatchAgain(s, EA, EB);
    HoldIsKept(Batch(1, [EA], 0));
    s := SecondRowAgain(s, EA, EB, Hold(1, Batch(1, [EA], 0)));
    ThreeCharges(s.log, EA, EB);
  }

  lemma LoseTheSecond(s: Sys) returns (t: Sys)
    requires Reaches(s) && Stopped(s, File(2, None, [EB]), File(1, Some(Batch(1, [EA], 0)), [EB]), 1)
    requires s.log[0].mine && s.log[0].batch.rows == [EA]
    requires s.taken == [] && s.spent == [] && s.repeated == [] && s.issued == [[EA]] && s.launched == {0}
    ensures Reaches(t)
    ensures Stopped(t, File(1, Some(Batch(1, [EA], 0)), [EB]), File(1, Some(Batch(1, [EA], 0)), [EB]), 2)
    ensures t.counted == s.counted && t.repeated == [EB] && t.taken == [] && t.lent == [] && t.spent == []
    ensures t.log[0] == s.log[0] && t.log[1].mine && t.log[1].batch.rows == [EB]
  {
    RowsAreUsable();
    var durable := File(1, Some(Batch(1, [EA], 0)), [EB]);
    t := FormSecond(s, EA, EB, durable);
    t := SendAndLosePower(t, EB, Batch(2, [EB], 1), durable);
  }

  lemma RepeatedBytes()
    ensures Bytes([EB], 1, Upload) == 7
  {
    assert [EB][..0] == [];
  }

  lemma TwoCounters()
    ensures RamTotal(COUNTED, 1, Upload) == 12
  {
    RamTotalWithout(COUNTED, "a", 1, Upload);
    assert COUNTED - {"a"} == map["b" := B];
    RamTotalWithout(map["b" := B], "b", 1, Upload);
    assert map["b" := B] - {"b"} == map[];
  }

  // ---- how much may be taken back ----

  /** Over all runs in which power losses take back at most `k` spent rows each, nobody is charged
      more than was counted. */
  ghost predicate NeverOvercharges(k: nat) {
    forall s, acts, uid, d :: Initial(s) && Exec(s, acts).Some? && TakesBackAtMost(k, s, acts) ==>
      ChargedTotal(Exec(s, acts).value.log, uid, d) <= RamTotal(Exec(s, acts).value.counted, uid, d)
  }

  lemma {:induction false} NothingTakenBack(s: Sys, acts: seq<Action>)
    requires Initial(s) && Exec(s, acts).Some? && TakesBackAtMost(0, s, acts)
    ensures Exec(s, acts).value.repeated == []
    decreases |acts|
  {
    if acts != [] {
      NothingTakenBack(s, acts[..|acts| - 1]);
      if !acts[|acts| - 1].PowerLoss? {
        OutboxSafety.RepeatingStep(Exec(s, acts[..|acts| - 1]).value, acts[|acts| - 1]);
      }
    }
  }

  lemma {:induction false} TakingBackMore(k: nat, s: Sys, acts: seq<Action>)
    requires Exec(s, acts).Some? && TakesBackAtMost(1, s, acts) && 1 <= k
    ensures TakesBackAtMost(k, s, acts)
    decreases |acts|
  {
    if acts != [] {
      TakingBackMore(k, s, acts[..|acts| - 1]);
    }
  }

  /** The exact tolerance is none: the guarantee holds if no power loss takes back a spent row, and one
      such row is enough to break it. */
  lemma NeverOverchargesIff(k: nat)
    ensures NeverOvercharges(k) <==> k == 0
  {
    if k == 0 {
      forall s, acts, uid, d | Initial(s) && Exec(s, acts).Some? && TakesBackAtMost(0, s, acts)
        ensures ChargedTotal(Exec(s, acts).value.log, uid, d) <= RamTotal(Exec(s, acts).value.counted, uid, d)
      {
        OutboxSafety.AtMostOnce(s, acts);
        NothingTakenBack(s, acts);
      }
    } else {
      BytesCanBeChargedTwice();
      var s :| Reaches(s) && ChargedTotal(s.log, 1, Upload) == 19 && RamTotal(s.counted, 1, Upload) == 12;
      var acts :| Exec(NEW_NODE, acts) == Some(s) && TakesBackAtMost(1, NEW_NODE, acts);
      TakingBackMore(k, NEW_NODE, acts);
      assert ChargedTotal(Exec(NEW_NODE, acts).value.log, 1, Upload)
             > RamTotal(Exec(NEW_NODE, acts).value.counted, 1, Upload);
    }
  }
}
