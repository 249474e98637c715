/** What a reporting round reports, and in which order (api/v2board/traffic.go, FlushTrafficLimit). */
module ReportOrder {
  import opened Options
  import opened TrafficTypes
  import opened Batching
  import opened Fairness

  /** The user of the last row, who was reported last. */
  function LastUid(rows: seq<Row>): int { if rows == [] then 0 else rows[|rows| - 1].uid }

  /** lastTrafficUID after these batches. */
  function UidAfter(batches: seq<seq<Row>>, last: int): int {
    if batches == [] then last else LastUid(batches[|batches| - 1])
  }

  /** A limit of zero is none. */
  function Limited(batches: seq<seq<Row>>, limit: nat): seq<seq<Row>> {
    if limit == 0 || |batches| <= limit then batches else batches[..limit]
  }

  /** What comes before the counters: the pending batch, then the buffer. */
  function Early(from: ReportState): seq<seq<Row>> {
    (if from.pending.Some? then [from.pending.value.rows] else []) + Batches(from.buffered)
  }

  /** All that a round without a limit reports, if it reads `captured` from the counters. */
  function Everything(from: ReportState, captured: seq<Row>, last: int): seq<seq<Row>> {
    Early(from) + Batches(Queue(captured, UidAfter(Early(from), last)))
  }

  /** The counters are read if the limit leaves room for more. */
  predicate ReadsCounters(early: seq<seq<Row>>, limit: nat) { limit == 0 || |early| < limit }

  lemma LimitedAppend(a: seq<seq<Row>>, b: seq<seq<Row>>, limit: nat)
    ensures !ReadsCounters(a, limit) ==> Limited(a + b, limit) == Limited(a, limit)
    ensures ReadsCounters(a, limit) ==>
              Limited(a, limit) == a
              && Limited(a + b, limit) == a + Limited(b, if limit == 0 then 0 else limit - |a|)
  {
    if limit > 0 {
      if |a| < limit < |a + b| {
        assert (a + b)[..limit] == a + b[..limit - |a|];
      } else if limit <= |a| {
        assert (a + b)[..limit] == a[..limit];
        assert a[..|a|] == a;
      }
    }
  }

  lemma SentInTurn(reported: seq<seq<Row>>, a: seq<seq<Row>>, b: seq<seq<Row>>)
    ensures (reported + a) + b == reported + (a + b)
  {
  }

  lemma UidAfterAppend(a: seq<seq<Row>>, b: seq<seq<Row>>, last: int)
    ensures UidAfter(a + b, last) == UidAfter(b, UidAfter(a, last))
  {
  }

  /** Nothing that is read from the counters is left out of a round without a limit, or sent twice. */
  lemma NoLimitReportsEverything(from: ReportState, captured: seq<Row>, last: int)
    ensures Limited(Everything(from, captured, last), 0) == Everything(from, captured, last)
    ensures multiset(Flatten(Everything(from, captured, last)))
         == multiset(Flatten(Early(from))) + multiset(captured)
    ensures multiset(Flatten(Early(from)))
         == (if from.pending.Some? then multiset(from.pending.value.rows) else multiset{}) + multiset(from.buffered)
  {
    var q := Queue(captured, UidAfter(Early(from), last));
    QueueKeepsRows(captured, UidAfter(Early(from), last));
    BatchesDrainTheQueue(q);
    BatchesDrainTheQueue(from.buffered);
    FlattenAppend(Early(from), Batches(q));
    if from.pending.Some? {
      FlattenAppend([from.pending.value.rows], Batches(from.buffered));
      assert Flatten([from.pending.value.rows]) == from.pending.value.rows;
    } else {
      assert Early(from) == Batches(from.buffered);
    }
  }

  lemma {:induction false} FlattenAppend(a: seq<seq<Row>>, b: seq<seq<Row>>)
    ensures Flatten(a + b) == Flatten(a) + Flatten(b)
    decreases |a|
  {
    if a == [] {
      assert a + b == b;
    } else {
      assert (a + b)[1..] == a[1..] + b;
      FlattenAppend(a[1..], b);
    }
  }

  /** With nothing pending or buffered, a round of one batch reports the batch that is next in the cycle. */
  lemma OneBatchRound(from: ReportState, captured: seq<Row>, last: int)
    requires from.pending.None? && from.buffered == []
    ensures Limited(Everything(from, captured, last), 1)
         == if captured == [] then [] else [RoundBatch(captured, last)]
    ensures UidAfter(Limited(Everything(from, captured, last), 1), last) == NextLast(captured, last)
  {
    QueueKeepsRows(captured, last);
    assert Early(from) == [];
    assert Everything(from, captured, last) == Batches(Queue(captured, last));
    if captured != [] {
      assert |multiset(captured)| == |multiset(Queue(captured, last))|;
      assert Batches(Queue(captured, last))[..1] == [RoundBatch(captured, last)];
    }
  }

  /** What is left in the buffer when this much has been sent. */
  predicate LeavesOver(from: ReportState, sent: nat, buffered: seq<Row>) {
    Batches(buffered) == if sent < |Early(from)| then Early(from)[sent..] else []
  }

  lemma EarlyIsBuffer(from: ReportState)
    requires from.pending.None?
    ensures Early(from) == Batches(from.buffered)
  {
  }

  /** A round that starts from `from` has sent `sent`, and `buffered` is left. */
  predicate IsRound(from: ReportState, captured: seq<Row>, last: int, limit: nat, sent: seq<seq<Row>>,
                    buffered: seq<Row>) {
    sent == Limited(Everything(from, captured, last), limit) && LeavesOver(from, |sent|, buffered)
  }

  /** What is early depends on the pending batch and the buffer only; with a pending batch, its user is
      the last one when the counters are read, whoever was before. */
  lemma SameEarly(x: ReportState, y: ReportState)
    requires x.pending == y.pending && x.buffered == y.buffered
    ensures Early(x) == Early(y)
    ensures forall captured, last :: Everything(x, captured, last) == Everything(y, captured, last)
  {
  }

  lemma BehindPending(reported: seq<seq<Row>>, from: ReportState, captured: seq<Row>, last: int, limit: nat,
                      sent: seq<seq<Row>>, buffered: seq<Row>)
    requires from.pending.Some?
    requires IsRound(from, captured, LastUid(from.pending.value.rows), limit, [from.pending.value.rows]
             + sent, buffered)
    ensures IsRound(from, captured, last, limit, [from.pending.value.rows] + sent, buffered)
    ensures (reported + [from.pending.value.rows]) + sent == reported + ([from.pending.value.rows] + sent)
    ensures UidAfter([from.pending.value.rows] + sent, last) == UidAfter(sent, LastUid(from.pending.value.rows))
  {
    SentInTurn(reported, [from.pending.value.rows], sent);
    UidAfterAppend([from.pending.value.rows], sent, last);
    EverythingAfterPending(from, captured, last);
    EverythingAfterPending(from, captured, LastUid(from.pending.value.rows));
  }

  /** The limit is reached in the buffer. */
  lemma StopsEarly(from: ReportState, last: int, limit: nat, sent: seq<seq<Row>>, buffered: seq<Row>)
    requires from.pending.None? && sent == Limited(Batches(from.buffered), limit) && |sent| == limit > 0
    requires Batches(buffered) == Batches(from.buffered)[|sent|..]
    ensures IsRound(from, [], last, limit, sent, buffered) && !ReadsCounters(Early(from), limit)
  {
    EarlyIsBuffer(from);
    LimitedAppend(Early(from), Batches(Queue([], UidAfter(Early(from), last))), limit);
  }

  /** The buffer is sent, and then what is due from the counters. */
  lemma GoesOn(from: ReportState, captured: seq<Row>, last: int, limit: nat, due: seq<seq<Row>>, more: seq<seq<Row>>)
    requires from.pending.None? && due == Batches(from.buffered) && ReadsCounters(due, limit)
    requires more == Limited(Batches(Queue(captured, UidAfter(due, last))), if limit == 0 then 0 else limit - |due|)
    ensures IsRound(from, captured, last, limit, due + more, []) && ReadsCounters(Early(from), limit)
    ensures UidAfter(due + more, last) == UidAfter(more, UidAfter(due, last))
  {
    EarlyIsBuffer(from);
    var q := Batches(Queue(captured, UidAfter(due, last)));
    assert Everything(from, captured, last) == due + q;
    LimitedAppend(due, q, limit);
    UidAfterAppend(due, more, last);
  }

  /** What a round has reported whose buffer was sent and then what is due from the counters. */
  lemma InTurn(before: seq<seq<Row>>, from: ReportState, captured: seq<Row>, last: int, limit: nat,
               reported: seq<seq<Row>>)
      returns (sent: seq<seq<Row>>)
    requires from.pending.None? && ReadsCounters(Batches(from.buffered), limit)
    requires var due := Batches(from.buffered);
             var more := Limited(Batches(Queue(captured, UidAfter(due, last))), if limit == 0 then 0
               else limit - |due|);
             reported == (before + due) + more
    ensures reported == before + sent && IsRound(from, captured, last, limit, sent, [])
            && ReadsCounters(Early(from), limit)
    ensures var due := Batches(from.buffered);
            var more := Limited(Batches(Queue(captured, UidAfter(due, last))), if limit == 0 then 0 else limit - |due|);
            UidAfter(sent, last) == UidAfter(more, UidAfter(due, last))
  {
    var due := Batches(from.buffered);
    var more := Limited(Batches(Queue(captured, UidAfter(due, last))), if limit == 0 then 0 else limit - |due|);
    GoesOn(from, captured, last, limit, due, more);
    SentInTurn(before, due, more);
    sent := due + more;
  }

  /** A pending batch comes first, and counts. */
  lemma PendingFirst(from: ReportState, captured: seq<Row>, last: int, limit: nat, sent: seq<seq<Row>>,
                     buffered: seq<Row>)
    requires from.pending.Some? && limit != 1
    requires IsRound(from.(pending := None), captured, LastUid(from.pending.value.rows),
                     if limit == 0 then 0 else limit - 1, sent, buffered)
    ensures IsRound(from, captured, last, limit, [from.pending.value.rows] + sent, buffered)
    ensures ReadsCounters(Early(from), limit)
       <==> ReadsCounters(Early(from.(pending := None)), if limit == 0 then 0 else limit - 1)
    ensures UidAfter([from.pending.value.rows] + sent, last) == UidAfter(sent, LastUid(from.pending.value.rows))
  {
    var first, rest := from.pending.value.rows, from.(pending := None);
    EverythingAfterPending(from, captured, last);
    LimitedBehind(first, Everything(rest, captured, LastUid(first)), limit);
    LeftBehind(from, |sent|, buffered);
    UidAfterAppend([first], sent, last);
  }

  lemma LimitedBehind(first: seq<Row>, all: seq<seq<Row>>, limit: nat)
    requires limit != 1
    ensures Limited([first] + all, limit) == [first] + Limited(all, if limit == 0 then 0 else limit - 1)
  {
    LimitedAppend([first], all, limit);
  }

  lemma LeftBehind(from: ReportState, n: nat, buffered: seq<Row>)
    requires from.pending.Some? && LeavesOver(from.(pending := None), n, buffered)
    ensures LeavesOver(from, n + 1, buffered)
  {
    var early := Early(from.(pending := None));
    EarlyIsBuffer(from.(pending := None));
    assert Early(from) == [from.pending.value.rows] + early;
    if n < |early| {
      LeavesOverBehind(early, from.pending.value.rows, n);
    }
  }

  lemma LeavesOverBehind(early: seq<seq<Row>>, first: seq<Row>, n: nat)
    requires n < |early|
    ensures ([first] + early)[n + 1..] == early[n..]
  {
  }

  lemma EarlyAfterPending(from: ReportState)
    requires from.pending.Some?
    ensures Early(from) == [from.pending.value.rows] + Early(from.(pending := None))
  {
    EarlyIsBuffer(from.(pending := None));
  }

  lemma EverythingAfterPending(from: ReportState, captured: seq<Row>, last: int)
    requires from.pending.Some?
    ensures var p, rest, uid := [from.pending.value.rows], from.(pending := None), LastUid(from.pending.value.rows);
            Early(from) == p + Early(rest) && Everything(from, captured, last) == p + Everything(rest, captured, uid)
  {
    var p, rest, uid := [from.pending.value.rows], from.(pending := None), LastUid(from.pending.value.rows);
    var early, after := Early(from), UidAfter(Early(rest), uid);
    EarlyAfterPending(from);
    UidAfterAppend(p, Early(rest), last);
    SentInTurn(p, Early(rest), Batches(Queue(captured, after)));
    assert UidAfter(early, last) == after;
  }

  /** Only the pending batch. */
  lemma PendingOnly(from: ReportState, last: int)
    requires from.pending.Some?
    ensures IsRound(from, [], last, 1, [from.pending.value.rows], from.buffered) && !ReadsCounters(Early(from), 1)
  {
    EverythingAfterPending(from, [], last);
    EarlyIsBuffer(from.(pending := None));
    assert Early(from)[1..] == Batches(from.buffered);
  }

  // ---- one batch after the other ----

  /** `sent` is done, the batches of `rows` are left; under a limit, `left` more may be sent. */
  predicate Underway(due: seq<seq<Row>>, sent: seq<seq<Row>>, rows: seq<Row>, limit: nat, left: nat) {
    due == sent + Batches(rows) && if limit == 0 then left == 0 else 0 < left == limit - |sent|
  }

  lemma OneMoreSent(due: seq<seq<Row>>, sent: seq<seq<Row>>, rows: seq<Row>, limit: nat, left: nat)
    requires rows != [] && Underway(due, sent, rows, limit, left)
    ensures var more, rest := sent + [Pick(rows).selected], Pick(rows).rest;
            && |more| == |sent| + 1
            && if left == 1 then limit == |more| && Limited(due, limit) == more && Batches(rest) == due[|more|..]
               else Underway(due, more, rest, limit, if left == 0 then 0 else left - 1)
  {
    BatchesExtend(rows);
    MoreOfDue(due, sent, Pick(rows).selected, Batches(Pick(rows).rest), limit, left);
  }

  lemma BatchesExtend(rows: seq<Row>)
    requires rows != []
    ensures Batches(rows) == [Pick(rows).selected] + Batches(Pick(rows).rest)
  {
  }

  lemma MoreOfDue(due: seq<seq<Row>>, sent: seq<seq<Row>>, next: seq<Row>, rest: seq<seq<Row>>, limit: nat, left: nat)
    requires due == sent + ([next] + rest) && if limit == 0 then left == 0 else 0 < left == limit - |sent|
    ensures var more := sent + [next];
            && due == more + rest
            && (left == 1 ==> limit == |more| && Limited(due, limit) == more && rest == due[|more|..])
  {
    var more := sent + [next];
    assert due == more + rest;
    assert due[..|more|] == more;
  }

  lemma AllSent(due: seq<seq<Row>>, sent: seq<seq<Row>>, limit: nat, left: nat)
    requires Underway(due, sent, [], limit, left)
    ensures Limited(due, limit) == sent && due[|sent|..] == [] && left == if limit == 0 then 0 else limit - |sent|
  {
    assert due == sent;
  }
}
