/** The bounded audit list of isolated batches (api/v2board/traffic_isolation.go). */
module AuditHolds {
  import opened TrafficTypes

  /** The entries that are still inside the retention period, in order. */
  function Unexpired(held: seq<Hold>, now: int): seq<Hold> {
    if held == [] then []
    else
      var init, h := Unexpired(held[..|held| - 1], now), held[|held| - 1];
      if h.at > now - TRAFFIC_HOLD_TTL then init + [h] else init
  }

  function Last(held: seq<Hold>, n: nat): seq<Hold> { if |held| > n then held[|held| - n..] else held }

  function Newest(held: seq<Hold>): seq<Hold> { Last(held, MAX_TRAFFIC_HOLDS) }

  function Trim(held: seq<Hold>, now: int): seq<Hold> { Newest(Unexpired(held, now)) }

  /** trimTrafficHolds */
  method TrimTrafficHolds(held: seq<Hold>, now: int) returns (result: seq<Hold>)
    ensures result == Trim(held, now)
    ensures |result| <= MAX_TRAFFIC_HOLDS
    ensures forall h :: h in result ==> h in held && h.at > now - TRAFFIC_HOLD_TTL
  {
    result := [];
    for i := 0 to |held|
      invariant result == Unexpired(held[..i], now)
    {
      assert held[..i + 1][..i] == held[..i];
      if held[i].at > now - TRAFFIC_HOLD_TTL {
        result := result + [held[i]];
      }
    }
    assert held[..|held|] == held;
    UnexpiredMembers(held, now);
    if |result| > MAX_TRAFFIC_HOLDS {
      result := result[|result| - MAX_TRAFFIC_HOLDS..];
    }
  }

  lemma {:induction false} UnexpiredMembers(held: seq<Hold>, now: int)
    ensures forall h :: h in Unexpired(held, now) <==> h in held && h.at > now - TRAFFIC_HOLD_TTL
    decreases |held|
  {
    if held != [] {
      UnexpiredMembers(held[..|held| - 1], now);
      assert held == held[..|held| - 1] + [held[|held| - 1]];
    }
  }

  lemma TrimMembers(held: seq<Hold>, now: int)
    ensures |Trim(held, now)| <= MAX_TRAFFIC_HOLDS
    ensures forall h :: h in Trim(held, now) ==> h in held
  {
    UnexpiredMembers(held, now);
  }

  // ---- trimming step by step is trimming once ----

  predicate InOrder(held: seq<Hold>) {
    forall i, j :: 0 <= i < j < |held| ==> held[i].at <= held[j].at
  }

  lemma {:induction false} UnexpiredAppend(a: seq<Hold>, b: seq<Hold>, now: int)
    ensures Unexpired(a + b, now) == Unexpired(a, now) + Unexpired(b, now)
    decreases |b|
  {
    if b == [] {
      assert a + b == a;
    } else {
      assert (a + b)[..|a + b| - 1] == a + b[..|b| - 1];
      UnexpiredAppend(a, b[..|b| - 1], now);
    }
  }

  lemma {:induction false} UnexpiredTwice(held: seq<Hold>, t1: int, t2: int)
    requires t1 <= t2
    ensures Unexpired(Unexpired(held, t1), t2) == Unexpired(held, t2)
    decreases |held|
  {
    if held != [] {
      var init, h := held[..|held| - 1], held[|held| - 1];
      UnexpiredTwice(init, t1, t2);
      UnexpiredAppend(Unexpired(init, t1), [h], t2);
      assert [h][..0] == [];
    }
  }

  lemma {:induction false} AllUnexpired(held: seq<Hold>, now: int)
    requires forall h :: h in held ==> h.at > now - TRAFFIC_HOLD_TTL
    ensures Unexpired(held, now) == held
    decreases |held|
  {
    if held != [] {
      AllUnexpired(held[..|held| - 1], now);
    }
  }

  lemma {:induction false} AllExpired(held: seq<Hold>, now: int)
    requires forall h :: h in held ==> h.at <= now - TRAFFIC_HOLD_TTL
    ensures Unexpired(held, now) == []
    decreases |held|
  {
    if held != [] {
      AllExpired(held[..|held| - 1], now);
    }
  }

  lemma {:induction false} UnexpiredInOrder(held: seq<Hold>, now: int)
    requires InOrder(held)
    ensures InOrder(Unexpired(held, now))
    decreases |held|
  {
    if held != [] {
      UnexpiredInOrder(held[..|held| - 1], now);
      UnexpiredMembers(held[..|held| - 1], now);
    }
  }

  lemma NewestIgnoresOlder(older: seq<Hold>, recent: seq<Hold>)
    requires older == [] || |recent| >= MAX_TRAFFIC_HOLDS
    ensures Newest(older + recent) == Newest(recent)
  {
    if older == [] {
      assert older + recent == recent;
    }
  }

  lemma OldestSurvivesOnlyWithTheRest(gone: seq<Hold>, kept: seq<Hold>, t: int)
    requires InOrder(gone + kept)
    ensures Unexpired(gone, t) == [] || Unexpired(kept, t) == kept
  {
    UnexpiredMembers(gone, t);
    if Unexpired(gone, t) != [] {
      var h := Unexpired(gone, t)[0];
      assert h in gone;
      var i :| 0 <= i < |gone| && gone[i] == h;
      forall k | k in kept
        ensures h.at <= k.at
      {
        var j :| 0 <= j < |kept| && kept[j] == k;
        assert (gone + kept)[i] == h && (gone + kept)[|gone| + j] == k;
      }
      AllUnexpired(kept, t);
    }
  }

  /** Dropping by count first does not change what trimming at a later time keeps. */
  lemma NewestThenLater(held: seq<Hold>, more: seq<Hold>, t: int)
    requires InOrder(held)
    ensures Trim(Newest(held) + more, t) == Trim(held + more, t)
  {
    if |held| > MAX_TRAFFIC_HOLDS {
      var k := |held| - MAX_TRAFFIC_HOLDS;
      var gone, kept := held[..k], held[k..];
      assert held == gone + kept;
      assert held + more == gone + (kept + more);
      UnexpiredAppend(gone, kept + more, t);
      UnexpiredAppend(kept, more, t);
      OldestSurvivesOnlyWithTheRest(gone, kept, t);
      NewestIgnoresOlder(Unexpired(gone, t), Unexpired(kept + more, t));
    }
  }

  lemma TrimThenLater(held: seq<Hold>, more: seq<Hold>, t1: int, t2: int)
    requires InOrder(held) && t1 <= t2
    ensures Trim(Trim(held, t1) + more, t2) == Trim(held + more, t2)
  {
    var live := Unexpired(held, t1);
    UnexpiredInOrder(held, t1);
    NewestThenLater(live, more, t2);
    UnexpiredAppend(live, more, t2);
    UnexpiredAppend(held, more, t2);
    UnexpiredTwice(held, t1, t2);
  }

  // ---- the list over a whole history of reports ----

  /** A batch leaves the outbox: isolated (marked at `at`, finished at `now`) or acknowledged. */
  datatype Progress = Isolated(hold: Hold, now: int) | Acknowledged(now: int)

  function HeldAfter(events: seq<Progress>): seq<Hold> {
    if events == [] then []
    else
      var held := HeldAfter(events[..|events| - 1]);
      match events[|events| - 1]
      case Isolated(h, now) => Trim(held + [h], now)
      case Acknowledged(now) => Trim(held, now)
  }

  function History(events: seq<Progress>): seq<Hold> {
    if events == [] then []
    else
      var h := History(events[..|events| - 1]);
      match events[|events| - 1]
      case Isolated(hold, _) => h + [hold]
      case Acknowledged(_) => h
  }

  function LastTrim(events: seq<Progress>): int {
    if events == [] then 0 else events[|events| - 1].now
  }

  /** The clock never goes back: each marker is set after the previous report finished. */
  predicate ClockRunsForward(events: seq<Progress>) {
    events == [] ||
    var before := LastTrim(events[..|events| - 1]);
    var e := events[|events| - 1];
    && ClockRunsForward(events[..|events| - 1])
    && before <= e.now
    && (e.Isolated? ==> before <= e.hold.at <= e.now)
  }

  lemma {:induction false} HistoryInOrder(events: seq<Progress>)
    requires ClockRunsForward(events)
    ensures InOrder(History(events))
    ensures forall h :: h in History(events) ==> h.at <= LastTrim(events)
    decreases |events|
  {
    if events != [] {
      HistoryInOrder(events[..|events| - 1]);
    }
  }

  /** The incrementally trimmed list is the full isolation history trimmed once, at the last trim. */
  lemma {:induction false} HeldIsTrimmedHistory(events: seq<Progress>)
    requires ClockRunsForward(events)
    ensures HeldAfter(events) == Trim(History(events), LastTrim(events))
    decreases |events|
  {
    if events != [] {
      var init, e := events[..|events| - 1], events[|events| - 1];
      HeldIsTrimmedHistory(init);
      HistoryInOrder(init);
      var more := if e.Isolated? then [e.hold] else [];
      TrimThenLater(History(init), more, LastTrim(init), e.now);
      assert HeldAfter(init) + [] == HeldAfter(init) && History(init) + [] == History(init);
    }
  }

  // ---- without a forward clock ----

  /** What the bound on the length drops from the unexpired entries. */
  function DroppedByCount(held: seq<Hold>): seq<Hold> {
    if |held| > MAX_TRAFFIC_HOLDS then held[..|held| - MAX_TRAFFIC_HOLDS] else []
  }

  /** How many older entries the list has room for beside these. */
  function Room(recent: seq<Hold>): nat {
    if |recent| < MAX_TRAFFIC_HOLDS then MAX_TRAFFIC_HOLDS - |recent| else 0
  }

  /** What trimming everything at `t2` keeps of the older entries. */
  function Needed(held: seq<Hold>, more: seq<Hold>, t2: int): seq<Hold> {
    Last(Unexpired(held, t2), Room(Unexpired(more, t2)))
  }

  /** At the second trim nothing is missing: what the first one dropped by count has expired, or there
      are enough newer entries; and nothing that is needed now had expired then. */
  predicate NothingMissing(held: seq<Hold>, more: seq<Hold>, t1: int, t2: int) {
    var live := Unexpired(held, t1);
    && (Unexpired(DroppedByCount(live), t2) == [] || |Unexpired(Newest(live) + more, t2)| >= MAX_TRAFFIC_HOLDS)
    && (forall h :: h in Needed(held, more, t2) ==> h.at > t1 - TRAFFIC_HOLD_TTL)
  }

  lemma NewestIsRoom(older: seq<Hold>, recent: seq<Hold>)
    ensures Newest(older + recent) == Last(older, Room(recent)) + Newest(recent)
  {
    var k := |older| + |recent| - MAX_TRAFFIC_HOLDS;
    if |recent| >= MAX_TRAFFIC_HOLDS {
      assert Last(older, 0) == [];
      assert (older + recent)[k..] == recent[k - |older|..];
    } else if k > 0 {
      assert (older + recent)[k..] == older[k..] + recent;
    }
  }

  lemma NewestKeepsIff(older: seq<Hold>, recent: seq<Hold>)
    ensures Newest(older + recent) == Newest(recent) <==> older == [] || |recent| >= MAX_TRAFFIC_HOLDS
  {
    if older == [] || |recent| >= MAX_TRAFFIC_HOLDS {
      NewestIgnoresOlder(older, recent);
    } else {
      assert |Newest(older + recent)| > |recent|;
    }
  }

  lemma {:induction false} UnexpiredCommutes(held: seq<Hold>, t1: int, t2: int)
    ensures Unexpired(Unexpired(held, t1), t2) == Unexpired(Unexpired(held, t2), t1)
    decreases |held|
  {
    if held != [] {
      var init, h := held[..|held| - 1], held[|held| - 1];
      UnexpiredCommutes(init, t1, t2);
      UnexpiredAppend(Unexpired(init, t1), [h], t2);
      UnexpiredAppend(Unexpired(init, t2), [h], t1);
      assert [h][..0] == [];
    }
  }

  /** The last `n` entries stay the last `n` if none of them has expired. */
  lemma LastUnexpired(held: seq<Hold>, n: nat, t: int)
    requires forall h :: h in Last(held, n) ==> h.at > t - TRAFFIC_HOLD_TTL
    ensures Last(Unexpired(held, t), n) == Last(held, n)
  {
    var late := Last(held, n);
    var early := held[..|held| - |late|];
    assert held == early + late;
    UnexpiredAppend(early, late, t);
    AllUnexpired(late, t);
  }

  /** Exactly when trimming twice is trimming once, for markers in any order and any two clocks. */
  lemma TrimThenLaterIff(held: seq<Hold>, more: seq<Hold>, t1: int, t2: int)
    ensures Trim(Trim(held, t1) + more, t2) == Trim(held + more, t2) <==> NothingMissing(held, more, t1, t2)
  {
    var live := Unexpired(held, t1);
    var gone, kept := DroppedByCount(live), Newest(live);
    assert live == gone + kept;
    assert live + more == gone + (kept + more);
    UnexpiredAppend(gone, kept + more, t2);
    UnexpiredAppend(live, more, t2);
    UnexpiredAppend(held, more, t2);
    UnexpiredAppend(kept, more, t2);
    NewestKeepsIff(Unexpired(gone, t2), Unexpired(kept + more, t2));
    FirstTrimIsHarmless(held, more, t1, t2);
    if Trim(kept + more, t2) == Trim(held + more, t2) {
      NothingNeededHadExpired(held, kept, more, t1, t2);
    }
  }

  /** Dropping what has expired at `t1` is harmless if nothing of it is needed. */
  lemma FirstTrimIsHarmless(held: seq<Hold>, more: seq<Hold>, t1: int, t2: int)
    ensures (forall h :: h in Needed(held, more, t2) ==> h.at > t1 - TRAFFIC_HOLD_TTL) ==>
              Newest(Unexpired(Unexpired(held, t1), t2) + Unexpired(more, t2))
                == Newest(Unexpired(held, t2) + Unexpired(more, t2))
  {
    var recent := Unexpired(more, t2);
    UnexpiredCommutes(held, t1, t2);
    NewestIsRoom(Unexpired(Unexpired(held, t1), t2), recent);
    NewestIsRoom(Unexpired(held, t2), recent);
    if forall h :: h in Needed(held, more, t2) ==> h.at > t1 - TRAFFIC_HOLD_TTL {
      LastUnexpired(Unexpired(held, t2), Room(recent), t1);
    }
  }

  lemma NothingNeededHadExpired(held: seq<Hold>, kept: seq<Hold>, more: seq<Hold>, t1: int, t2: int)
    requires kept == Trim(held, t1) && Trim(kept + more, t2) == Trim(held + more, t2)
    ensures forall h :: h in Needed(held, more, t2) ==> h.at > t1 - TRAFFIC_HOLD_TTL
  {
    var recent := Unexpired(more, t2);
    UnexpiredAppend(kept, more, t2);
    UnexpiredAppend(held, more, t2);
    NewestIsRoom(Unexpired(kept, t2), recent);
    NewestIsRoom(Unexpired(held, t2), recent);
    var x, y := Last(Unexpired(kept, t2), Room(recent)), Needed(held, more, t2);
    assert x + Newest(recent) == y + Newest(recent);
    assert x == (x + Newest(recent))[..|x|] == y;
    UnexpiredMembers(held, t1);
    UnexpiredMembers(kept, t2);
  }

  /** The trims come in order of time; the markers need not. */
  predicate TrimsRunForward(events: seq<Progress>) {
    forall i, j :: 0 <= i < j < |events| ==> events[i].now <= events[j].now
  }

  function NewHolds(e: Progress): seq<Hold> { if e.Isolated? then [e.hold] else [] }

  /** The list is the trimmed history after every report. */
  predicate AlwaysTrimmedHistory(events: seq<Progress>) {
    HeldAfter(events) == Trim(History(events), LastTrim(events))
    && (events == [] || AlwaysTrimmedHistory(events[..|events| - 1]))
  }

  /** Each report finds nothing missing from what the one before dropped. */
  predicate NeverMissing(events: seq<Progress>) {
    events == [] ||
    var init, e := events[..|events| - 1], events[|events| - 1];
    NeverMissing(init) && (init == [] || NothingMissing(History(init), NewHolds(e), LastTrim(init), e.now))
  }

  /** The exact condition over whole histories: the incremental list is always the trimmed history if
      and only if no report misses an entry that the one before it has dropped. The clock may go back
      before a marker and before a trim. */
  lemma {:induction false} HeldIsTrimmedHistoryIff(events: seq<Progress>)
    ensures AlwaysTrimmedHistory(events) <==> NeverMissing(events)
    decreases |events|
  {
    if events != [] {
      var init, e := events[..|events| - 1], events[|events| - 1];
      HeldIsTrimmedHistoryIff(init);
      assert History(init) + [] == History(init) && HeldAfter(init) + [] == HeldAfter(init);
      if init == [] {
        assert [] + NewHolds(e) == NewHolds(e);
      } else {
        TrimThenLaterIff(History(init), NewHolds(e), LastTrim(init), e.now);
      }
    }
  }

  // ---- a history for which it fails ----

  /** `n` isolations: the first marked at second 2, the others, after the clock went back, at second 1. */
  function ClockWentBack(b: Batch, n: nat): seq<Progress> {
    if n == 0 then []
    else ClockWentBack(b, n - 1) + [Isolated(Hold(if n == 1 then 2 else 1, b), 2)]
  }

  lemma NewestTwice(held: seq<Hold>, h: Hold)
    ensures Newest(Newest(held) + [h]) == Newest(held + [h])
  {
  }

  lemma {:induction false} ItsHistory(b: Batch, n: nat)
    ensures |ClockWentBack(b, n)| == n
    ensures forall e :: e in ClockWentBack(b, n) ==> e.Isolated? && e.now == 2 && e.hold.at > 0
    ensures |History(ClockWentBack(b, n))| == n
    ensures forall i :: 0 <= i < n ==> History(ClockWentBack(b, n))[i] == Hold(if i == 0 then 2 else 1, b)
    decreases n
  {
    if n > 0 {
      ItsHistory(b, n - 1);
      assert ClockWentBack(b, n)[..n - 1] == ClockWentBack(b, n - 1);
    }
  }

  /** One more isolation, at a time when nothing has expired. */
  lemma OneMore(events: seq<Progress>, h: Hold)
    requires HeldAfter(events) == Newest(History(events)) && h.at > 2 - TRAFFIC_HOLD_TTL
    requires forall g :: g in History(events) ==> g.at > 0
    ensures HeldAfter(events + [Isolated(h, 2)]) == Newest(Newest(History(events)) + [h])
    ensures History(events + [Isolated(h, 2)]) == History(events) + [h]
  {
    assert (events + [Isolated(h, 2)])[..|events|] == events;
    AllUnexpired(Newest(History(events)) + [h], 2);
  }

  /** Nothing has expired while all trims are at second 2. */
  lemma {:induction false} NothingExpiresYet(events: seq<Progress>)
    requires forall e :: e in events ==> e.Isolated? && e.now == 2 && e.hold.at > 0
    ensures HeldAfter(events) == Newest(History(events))
    ensures forall h :: h in History(events) ==> h.at > 0
    decreases |events|
  {
    if events != [] {
      var init, e := events[..|events| - 1], events[|events| - 1];
      assert e in events;
      NothingExpiresYet(init);
      OneMore(init, e.hold);
      NewestTwice(History(init), e.hold);
      assert events == init + [Isolated(e.hold, 2)];
    }
  }

  /** A run of reports with positive times and trims in order, but one marker out of order: after a
      retention period the list is empty although the trimmed history still has the first entry. */
  lemma BackwardClockBreaksIt(b: Batch)
    requires 0 < |b.rows| <= MAX_TRAFFIC_ROWS
    ensures var events := ClockWentBack(b, 17) + [Acknowledged(TRAFFIC_HOLD_TTL + 1)];
            && TrimsRunForward(events) && (forall h :: h in History(events) ==> ValidHold(h))
            && HeldAfter(events) == [] && Trim(History(events), LastTrim(events)) == [Hold(2, b)]
  {
    var init := ClockWentBack(b, 17);
    var events := init + [Acknowledged(TRAFFIC_HOLD_TTL + 1)];
    var t := TRAFFIC_HOLD_TTL + 1;
    ItsHistory(b, 17);
    NothingExpiresYet(init);
    assert events[..17] == init;
    var h := History(init);
    assert h == [Hold(2, b)] + h[1..];
    assert HeldAfter(init) == h[1..];
    AllExpired(h[1..], t);
    UnexpiredAppend([Hold(2, b)], h[1..], t);
    AllUnexpired([Hold(2, b)], t);
  }

  /** Two reports, the second trimmed by a clock that went back: an entry is gone that is unexpired. */
  lemma BackwardTrimBreaksIt(b: Batch)
    requires 0 < |b.rows| <= MAX_TRAFFIC_ROWS
    ensures var events := [Isolated(Hold(1, b), TRAFFIC_HOLD_TTL + 1), Acknowledged(2)];
            && (forall h :: h in History(events) ==> ValidHold(h))
            && HeldAfter(events) == [] && Trim(History(events), LastTrim(events)) == [Hold(1, b)]
  {
    var h, e, f := Hold(1, b), Isolated(Hold(1, b), TRAFFIC_HOLD_TTL + 1), Acknowledged(2);
    AllExpired([h], TRAFFIC_HOLD_TTL + 1);
    AllUnexpired([h], 2);
    assert [e][..0] == [] && [] + [h] == [h];
    assert History([e]) == [h] && HeldAfter([e]) == [];
    assert [e, f][..1] == [e];
    assert History([e, f]) == [h] && HeldAfter([e, f]) == Trim([], 2);
  }
}
