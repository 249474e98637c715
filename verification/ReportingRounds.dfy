/** Reporting rounds of one batch each, the smallest limit, performed by the client one after another. */
module ReportingRounds {
  import opened Options
  import opened TrafficTypes
  import opened Batching
  import opened Fairness
  import opened ReportOrder
  import opened OutboxClient

  lemma {:induction false} LastAfterOneMore(captures: seq<seq<Row>>, capture: seq<Row>, last: int)
    ensures LastAfter(captures + [capture], last) == NextLast(capture, LastAfter(captures, last))
    decreases |captures|
  {
    if captures == [] {
      assert [capture][1..] == [];
    } else {
      assert (captures + [capture])[1..] == captures[1..] + [capture];
      LastAfterOneMore(captures[1..], capture, NextLast(captures[0], last));
    }
  }

  /** Every round so far has reported the batch that was next in the cycle. */
  predicate InCycle(captures: seq<seq<Row>>, last: int, reported: seq<seq<Row>>) {
    forall k :: 0 <= k < |captures| && captures[k] != [] ==>
      RoundBatch(captures[k], LastAfter(captures[..k], last)) in reported
  }

  lemma OneMoreInCycle(captures: seq<seq<Row>>, capture: seq<Row>, last: int, reported: seq<seq<Row>>,
                       after: seq<seq<Row>>)
    requires InCycle(captures, last, reported)
    requires after == reported + if capture == [] then [] else [RoundBatch(capture, LastAfter(captures, last))]
    ensures InCycle(captures + [capture], last, after)
  {
    var all := captures + [capture];
    assert all[..|captures|] == captures;
    forall k | 0 <= k < |captures| && all[k] != []
      ensures RoundBatch(all[k], LastAfter(all[..k], last)) in reported
    {
      assert all[k] == captures[k] && all[..k] == captures[..k];
    }
    assert forall b :: b in reported ==> b in after;
  }

  /** A round of one batch, with nothing pending or buffered. */
  method OneRound(c: Client) returns (ok: bool, ghost captured: seq<Row>)
    requires c.Valid() && c.Loaded() && c.outbox.value.pending.None? && c.outbox.value.buffered == []
    modifies c, c.w
    ensures c.Valid()
    ensures ok ==>
              && c.Loaded() && c.outbox.value.pending.None? && c.outbox.value.buffered == []
              && c.lastTrafficUid == NextLast(captured, old(c.lastTrafficUid))
              && c.reported == old(c.reported)
                               + (if captured == [] then [] else [RoundBatch(captured, old(c.lastTrafficUid))])
              && c.w.captures == old(c.w.captures) + [captured]
  {
    ghost var from, sent;
    ghost var uid := c.lastTrafficUid;
    ok, from, captured, sent := c.FlushTrafficLimit(1);
    if ok {
      OneBatchRound(from, captured, uid);
    }
  }

  /** Enough rounds of one batch for this many users. */
  predicate Enough(rounds: nat, users: nat) { rounds == (users + MAX_TRAFFIC_ROWS - 1) / MAX_TRAFFIC_ROWS }

  /** Every user that was in each capture has been reported. */
  predicate NobodyLeftOut(captures: seq<seq<Row>>, universe: set<int>, reported: seq<seq<Row>>) {
    forall t :: t in universe && PresentInAll(captures, universe, t) ==> exists b :: b in reported && t in Uids(b)
  }

  predicate PresentInAll(captures: seq<seq<Row>>, universe: set<int>, t: int) {
    forall k :: 0 <= k < |captures| ==> t in Uids(captures[k]) && Uids(captures[k]) <= universe
  }

  /** `n` rounds. If all succeed, they have reported in the order of the cycle what was captured; and if
      there were ceil(|universe| / 500) of them, nobody who was in each capture is left out. */
  method Rounds(c: Client, n: nat, ghost universe: set<int>) returns (ok: bool, ghost captures: seq<seq<Row>>)
    requires c.Valid() && c.Loaded() && c.outbox.value.pending.None? && c.outbox.value.buffered == []
    modifies c, c.w
    ensures c.Valid()
    ensures ok ==>
              && |captures| == n && c.w.captures == old(c.w.captures) + captures
              && c.lastTrafficUid == LastAfter(captures, old(c.lastTrafficUid))
              && InCycle(captures, old(c.lastTrafficUid), c.reported)
    ensures ok && Enough(n, |universe|) ==> NobodyLeftOut(captures, universe, c.reported)
  {
    captures := [];
    ghost var last, read := c.lastTrafficUid, c.w.captures;
    for i := 0 to n
      invariant c.Valid() && c.Loaded() && c.outbox.value.pending.None? && c.outbox.value.buffered == []
      invariant |captures| == i && c.w.captures == read + captures
      invariant c.lastTrafficUid == LastAfter(captures, last) && InCycle(captures, last, c.reported)
    {
      ghost var capture, reported := [], c.reported;
      ok, capture := OneRound(c);
      if !ok {
        return;
      }
      OneMore(captures, capture, last, reported, c.reported, read);
      captures := captures + [capture];
    }
    ok := true;
    if Enough(n, |universe|) {
      EveryoneIsReported(captures, universe, last, c.reported);
    }
  }

  lemma OneMore(captures: seq<seq<Row>>, capture: seq<Row>, last: int, reported: seq<seq<Row>>, after: seq<seq<Row>>,
                read: seq<seq<Row>>)
    requires InCycle(captures, last, reported)
    requires after == reported + if capture == [] then [] else [RoundBatch(capture, LastAfter(captures, last))]
    ensures LastAfter(captures + [capture], last) == NextLast(capture, LastAfter(captures, last))
    ensures InCycle(captures + [capture], last, after) && (read + captures) + [capture] == read + (captures + [capture])
  {
    LastAfterOneMore(captures, capture, last);
    OneMoreInCycle(captures, capture, last, reported, after);
  }

  lemma EveryoneIsReported(captures: seq<seq<Row>>, universe: set<int>, last: int, reported: seq<seq<Row>>)
    requires InCycle(captures, last, reported) && Enough(|captures|, |universe|)
    ensures NobodyLeftOut(captures, universe, reported)
  {
    forall t | t in universe && PresentInAll(captures, universe, t)
      ensures exists b :: b in reported && t in Uids(b)
    {
      var k := NoUserIsStarved(universe, captures, last, t);
      assert t in Uids(captures[k]) && captures[k] != [];
    }
  }
}
