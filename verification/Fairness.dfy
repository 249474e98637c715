/** The rotating queue of a reporting round, and why no user is starved
    (api/v2board/traffic.go, FlushTrafficLimit). */
module Fairness {
  import opened TrafficTypes
  import opened Batching

  // ---- the queue: sorted by user, rotated past the user reported last ----

  /** Stable insertion: behind every row with a user not greater than `r`'s. */
  function Insert(rows: seq<Row>, r: Row): seq<Row> {
    if rows == [] || rows[|rows| - 1].uid <= r.uid then rows + [r]
    else Insert(rows[..|rows| - 1], r) + [rows[|rows| - 1]]
  }

  function SortByUid(rows: seq<Row>): seq<Row> {
    if rows == [] then [] else Insert(SortByUid(rows[..|rows| - 1]), rows[|rows| - 1])
  }

  /** The first index whose user is above `last`, as the search over a sorted list returns it. */
  function Pivot(rows: seq<Row>, last: int): (p: nat)
    ensures p <= |rows|
    ensures forall i :: 0 <= i < p ==> rows[i].uid <= last
    ensures p < |rows| ==> last < rows[p].uid
  {
    if rows == [] || last < rows[0].uid then 0 else 1 + Pivot(rows[1..], last)
  }

  function Queue(rows: seq<Row>, last: int): seq<Row> {
    var sorted := SortByUid(rows);
    var p := Pivot(sorted, last);
    sorted[p..] + sorted[..p]
  }

  predicate Ascending(rows: seq<Row>) {
    forall i, j :: 0 <= i < j < |rows| ==> rows[i].uid <= rows[j].uid
  }

  lemma {:induction false} InsertKeepsRows(rows: seq<Row>, r: Row)
    ensures multiset(Insert(rows, r)) == multiset(rows) + multiset{r}
    ensures forall q :: q in Insert(rows, r) ==> q in rows || q == r
    decreases |rows|
  {
    if !(rows == [] || rows[|rows| - 1].uid <= r.uid) {
      InsertKeepsRows(rows[..|rows| - 1], r);
      assert rows == rows[..|rows| - 1] + [rows[|rows| - 1]];
    }
  }

  lemma {:induction false} InsertSorts(rows: seq<Row>, r: Row)
    requires Ascending(rows)
    ensures Ascending(Insert(rows, r))
    decreases |rows|
  {
    if !(rows == [] || rows[|rows| - 1].uid <= r.uid) {
      var init, z := rows[..|rows| - 1], rows[|rows| - 1];
      InsertSorts(init, r);
      InsertKeepsRows(init, r);
      AscendingExtend(Insert(init, r), z);
    }
  }

  lemma AscendingExtend(rows: seq<Row>, z: Row)
    requires Ascending(rows) && forall q :: q in rows ==> q.uid <= z.uid
    ensures Ascending(rows + [z])
  {
  }

  lemma {:induction false} SortSorts(rows: seq<Row>)
    ensures Ascending(SortByUid(rows))
    ensures multiset(SortByUid(rows)) == multiset(rows)
    decreases |rows|
  {
    if rows != [] {
      SortSorts(rows[..|rows| - 1]);
      InsertSorts(SortByUid(rows[..|rows| - 1]), rows[|rows| - 1]);
      InsertKeepsRows(SortByUid(rows[..|rows| - 1]), rows[|rows| - 1]);
      assert rows == rows[..|rows| - 1] + [rows[|rows| - 1]];
    }
  }

  /** Rotation and sorting lose no row. */
  lemma QueueKeepsRows(rows: seq<Row>, last: int)
    ensures multiset(Queue(rows, last)) == multiset(rows)
    ensures |Queue(rows, last)| == |rows|
    ensures forall r :: r in Queue(rows, last) <==> r in rows
  {
    var sorted := SortByUid(rows);
    var p := Pivot(sorted, last);
    SortSorts(rows);
    assert sorted == sorted[..p] + sorted[p..];
    assert multiset(Queue(rows, last)) == multiset(rows);
    assert |multiset(Queue(rows, last))| == |Queue(rows, last)| && |multiset(rows)| == |rows|;
    forall r
      ensures r in Queue(rows, last) <==> r in rows
    {
      assert r in multiset(Queue(rows, last)) <==> r in multiset(rows);
    }
  }

  // ---- the cyclic order of users that starts just after `last` ----

  predicate Before(last: int, a: int, b: int) {
    if last < a then b <= last || a < b else b <= last && a < b
  }

  /** The users of `universe` that are served before `t` when `last` was reported last. */
  function Between(universe: set<int>, last: int, t: int): set<int> {
    set u | u in universe && Before(last, u, t)
  }

  lemma QueueFollowsTheCycle(rows: seq<Row>, last: int, i: nat, j: nat)
    requires i < j < |Queue(rows, last)|
    ensures !Before(last, Queue(rows, last)[j].uid, Queue(rows, last)[i].uid)
  {
    var sorted := SortByUid(rows);
    SortSorts(rows);
    var p := Pivot(sorted, last);
    assert forall k :: p <= k < |sorted| ==> last < sorted[k].uid;
    assert Queue(rows, last)[i] == if i < |sorted| - p then sorted[p + i] else sorted[i - (|sorted| - p)];
    assert Queue(rows, last)[j] == if j < |sorted| - p then sorted[p + j] else sorted[j - (|sorted| - p)];
  }

  // ---- where the selected rows sit in the queue ----

  lemma {:induction false} PickGrows(rows: seq<Row>, k: nat)
    requires k <= |rows|
    ensures Pick(rows[..k]).selected <= Pick(rows).selected
    decreases |rows|
  {
    if k < |rows| {
      assert rows[..|rows| - 1][..k] == rows[..k];
      PickGrows(rows[..|rows| - 1], k);
    } else {
      assert rows[..k] == rows;
    }
  }

  /** The selected rows are a subsequence: their queue positions are increasing. */
  lemma {:induction false} PickPosition(rows: seq<Row>, i: nat) returns (at: nat)
    requires i < |Pick(rows).selected|
    ensures at < |rows| && rows[at] == Pick(rows).selected[i]
    ensures i < |Pick(rows[..at + 1]).selected| && |Pick(rows[..at]).selected| == i
    decreases |rows|
  {
    var init := rows[..|rows| - 1];
    if i < |Pick(init).selected| {
      at := PickPosition(init, i);
      assert init[..at + 1] == rows[..at + 1] && init[..at] == rows[..at];
      PickGrows(rows, |rows| - 1);
    } else {
      at := |rows| - 1;
      assert rows[..at + 1] == rows;
    }
  }

  lemma PickInOrder(rows: seq<Row>, i: nat, j: nat) returns (a: nat, b: nat)
    requires i < j < |Pick(rows).selected|
    ensures a < b < |rows| && rows[a] == Pick(rows).selected[i] && rows[b] == Pick(rows).selected[j]
  {
    a := PickPosition(rows, i);
    b := PickPosition(rows, j);
    if b <= a {
      assert rows[..a][..b] == rows[..b];
      PickGrows(rows[..a], b);
      assert false;
    }
  }

  lemma PickTakesANewUser(rows: seq<Row>, at: nat)
    requires at < |rows| && |Pick(rows[..at]).selected| < MAX_TRAFFIC_ROWS
    ensures rows[at].uid in Uids(Pick(rows).selected)
  {
    var now, after := Pick(rows[..at]).selected, Pick(rows[..at + 1]).selected;
    assert rows[..at + 1][..at] == rows[..at];
    assert rows[at].uid in Uids(after) by {
      if rows[at].uid !in Uids(now) {
        UidsExtend(now, rows[at]);
      }
    }
    PickGrows(rows, at + 1);
  }

  /** A user that is in the queue but not in the batch is preceded by a full batch. */
  lemma SkippedMeansFull(rows: seq<Row>, t: int) returns (at: nat)
    requires t in Uids(rows) && t !in Uids(Pick(rows).selected)
    ensures at < |rows| && rows[at].uid == t
    ensures Pick(rows).selected == Pick(rows[..at]).selected
    ensures |Pick(rows).selected| == MAX_TRAFFIC_ROWS
  {
    at :| 0 <= at < |rows| && rows[at].uid == t;
    PickSizes(rows);
    PickSizes(rows[..at]);
    if |Pick(rows[..at]).selected| < MAX_TRAFFIC_ROWS {
      PickTakesANewUser(rows, at);
    }
    PickGrows(rows, at);
  }

  // ---- one round ----

  /** The first batch of a round: the rows it reports. */
  function RoundBatch(capture: seq<Row>, last: int): seq<Row> { Pick(Queue(capture, last)).selected }

  /** lastTrafficUID after that batch was acknowledged. */
  function NextLast(capture: seq<Row>, last: int): int {
    var b := RoundBatch(capture, last);
    if b == [] then last else b[|b| - 1].uid
  }

  lemma {:induction false} DistinctUidsCount(rows: seq<Row>)
    requires DistinctUids(rows)
    ensures |Uids(rows)| == |rows|
    decreases |rows|
  {
    if rows != [] {
      var init, r := rows[..|rows| - 1], rows[|rows| - 1];
      DistinctUidsCount(init);
      UidsExtend(init, r);
      assert rows == init + [r];
      assert r.uid !in Uids(init);
    }
  }

  lemma BatchIsAhead(capture: seq<Row>, last: int, t: int, i: nat)
    requires t in Uids(capture) && t !in Uids(RoundBatch(capture, last))
    requires i < |RoundBatch(capture, last)|
    ensures Before(last, RoundBatch(capture, last)[i].uid, t)
  {
    var q, b := Queue(capture, last), RoundBatch(capture, last);
    QueueHasTheSameUsers(capture, last);
    var at := SkippedMeansFull(q, t);
    var mine := PickPosition(q[..at], i);
    QueueFollowsTheCycle(capture, last, mine, at);
    assert b[i] in b && b[i].uid != t;
  }

  lemma QueueHasTheSameUsers(capture: seq<Row>, last: int)
    ensures Uids(Queue(capture, last)) == Uids(capture)
  {
    QueueKeepsRows(capture, last);
  }

  lemma LastOfBatchIsFurthest(capture: seq<Row>, last: int, i: nat)
    requires i < |RoundBatch(capture, last)|
    ensures !Before(last, NextLast(capture, last), RoundBatch(capture, last)[i].uid)
  {
    var n := |RoundBatch(capture, last)| - 1;
    if i < n {
      var x, y := PickInOrder(Queue(capture, last), i, n);
      QueueFollowsTheCycle(capture, last, x, y);
    }
  }

  lemma CycleRestarts(last: int, x: int, y: int, t: int)
    requires Before(last, y, t)
    ensures Before(y, x, t) <==> Before(last, y, x) && Before(last, x, t)
  {
  }

  /** A round that skips `t` brings it at least 500 users closer. */
  lemma SkippedUserAdvances(universe: set<int>, capture: seq<Row>, last: int, t: int)
    requires t in Uids(capture) && Uids(capture) <= universe
    requires t !in Uids(RoundBatch(capture, last))
    ensures |Between(universe, NextLast(capture, last), t)| + MAX_TRAFFIC_ROWS <= |Between(universe, last, t)|
  {
    var b, next := RoundBatch(capture, last), NextLast(capture, last);
    QueueKeepsRows(capture, last);
    QueueHasTheSameUsers(capture, last);
    var _ := SkippedMeansFull(Queue(capture, last), t);
    PickMembers(Queue(capture, last));
    PickDistinctUids(Queue(capture, last));
    DistinctUidsCount(b);
    BatchIsAhead(capture, last, t, |b| - 1);
    forall u | u in Uids(b)
      ensures u in Between(universe, last, t) && u !in Between(universe, next, t)
    {
      var i :| 0 <= i < |b| && b[i].uid == u;
      BatchIsAhead(capture, last, t, i);
      LastOfBatchIsFurthest(capture, last, i);
      CycleRestarts(last, u, next, t);
      assert b[i] in capture;
    }
    forall u | u in Between(universe, next, t)
      ensures u in Between(universe, last, t)
    {
      CycleRestarts(last, u, next, t);
    }
    assert Between(universe, next, t) <= Between(universe, last, t);
    Cardinality(Between(universe, next, t) + Uids(b), Between(universe, last, t));
  }

  lemma {:induction false} Cardinality(a: set<int>, b: set<int>)
    requires a <= b
    ensures |a| <= |b|
  {
    assert b == a + (b - a);
  }

  // ---- many rounds ----

  /** lastTrafficUID after one acknowledged batch per capture. */
  function LastAfter(captures: seq<seq<Row>>, last: int): int {
    if captures == [] then last else LastAfter(captures[1..], NextLast(captures[0], last))
  }

  lemma {:induction false} ReportedBeforeRunningOut(universe: set<int>, captures: seq<seq<Row>>, last: int, t: int)
    returns (k: nat)
    requires forall c :: c in captures ==> t in Uids(c) && Uids(c) <= universe
    requires |Between(universe, last, t)| < MAX_TRAFFIC_ROWS * |captures|
    ensures k < |captures|
    ensures t in Uids(RoundBatch(captures[k], LastAfter(captures[..k], last)))
    decreases |captures|
  {
    assert captures[0] in captures;
    if t in Uids(RoundBatch(captures[0], last)) {
      k := 0;
      assert captures[..0] == [];
    } else {
      SkippedUserAdvances(universe, captures[0], last, t);
      var later := ReportedBeforeRunningOut(universe, captures[1..], NextLast(captures[0], last), t);
      k := later + 1;
      assert captures[..k][1..] == captures[1..][..later];
    }
  }

  /** With one acknowledged batch per round, a user present in every capture is reported within
      ceil(|universe| / 500) rounds, whoever was reported last before. */
  lemma NoUserIsStarved(universe: set<int>, captures: seq<seq<Row>>, last: int, t: int) returns (k: nat)
    requires |captures| == (|universe| + MAX_TRAFFIC_ROWS - 1) / MAX_TRAFFIC_ROWS
    requires t in universe && forall c :: c in captures ==> t in Uids(c) && Uids(c) <= universe
    ensures k < |captures|
    ensures t in Uids(RoundBatch(captures[k], LastAfter(captures[..k], last)))
  {
    Cardinality(Between(universe, last, t) + {t}, universe);
    k := ReportedBeforeRunningOut(universe, captures, last, t);
  }
}
