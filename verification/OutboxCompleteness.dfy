/** Nothing is lost either. In a run of one process that is never stopped and isolates nothing, every
    counted byte is in the counters or in a batch, and the panel has accepted every batch but the one
    that is pending. */
module OutboxCompleteness {
  import opened Options
  import opened TrafficTypes
  import opened Batching
  import opened Totals
  import opened DrainTotals
  import opened Panel
  import opened OutboxMachine
  import opened OutboxInvariant
  import opened OutboxSteps
  import opened OutboxSafety

  /** No exit, power loss or shutdown, and no marker. */
  predicate Undisturbed(a: Action) {
    !a.Exit? && !a.PowerLoss? && !a.StartDrain? && !(a.Rename? && a.change.Mark?)
  }

  /** Bytes of all batches ever formed. */
  function FormedTotal(issued: seq<seq<Row>>, uid: int, d: Direction): int {
    if issued == [] then 0
    else FormedTotal(issued[..|issued| - 1], uid, d) + Bytes(issued[|issued| - 1], uid, d)
  }

  lemma FormedExtend(issued: seq<seq<Row>>, rows: seq<Row>, uid: int, d: Direction)
    ensures FormedTotal(issued + [rows], uid, d) == FormedTotal(issued, uid, d) + Bytes(rows, uid, d)
  {
    assert (issued + [rows])[..|issued|] == issued;
  }

  /** The panel has accepted exactly these rows, from this node or from another writer. */
  predicate AcceptedSomewhere(log: seq<Entry>, rows: seq<Row>) {
    exists i :: 0 <= i < |log| && BodyOf(log[i].batch) == Body(i + 1, rows)
  }

  predicate IsPending(client: Option<Mem>, o: nat) {
    && client.Some? && Latest(client.value).Some? && Latest(client.value).value.pending.Some?
    && Latest(client.value).value.pending.value.origin == o
  }

  predicate AllAccepted(log: seq<Entry>, issued: seq<seq<Row>>, client: Option<Mem>) {
    forall o :: 0 <= o < |issued| && !IsPending(client, o) ==> AcceptedSomewhere(log, issued[o])
  }

  /** Counted bytes are in the counters or in a batch; those of a live batch are in both. */
  ghost predicate AllThere(s: Sys, uid: int, d: Direction) {
    FormedTotal(s.issued, uid, d) + RamTotal(s.ram, uid, d) - LiveBytes(s, uid, d) == RamTotal(s.counted, uid, d)
  }

  /** One process, from the first file on: nothing is recovered, buffered, marked or drained. */
  predicate OneProcess(s: Sys) {
    && (s.client.None? ==> s.visible.None?)
    && (s.client.Some? ==>
          var m := s.client.value;
          && !m.recovered && !m.draining
          && (m.outbox.None? && m.unsynced.None? ==> s.visible.None?)
          && (m.outbox.Some? ==> Plain(m.outbox.value)) && (m.unsynced.Some? ==> Plain(m.unsynced.value)))
  }

  predicate Plain(x: ReportState) { x.buffered == [] && x.resolution.None? }

  ghost predicate Whole(s: Sys) {
    OneProcess(s) && AllAccepted(s.log, s.issued, s.client) && forall uid, d :: AllThere(s, uid, d)
  }

  lemma {:induction false} AcceptedIsStable(log: seq<Entry>, more: seq<Entry>, rows: seq<Row>)
    requires AcceptedSomewhere(log, rows)
    ensures AcceptedSomewhere(log + more, rows)
  {
    var i :| 0 <= i < |log| && BodyOf(log[i].batch) == Body(i + 1, rows);
    assert (log + more)[i] == log[i];
  }

  lemma OneProcessStep(s: Sys, a: Action)
    requires OneProcess(s) && Enabled(s, a) && Undisturbed(a)
    ensures OneProcess(Step(s, a))
  {
  }

  lemma LogGrows(s: Sys, a: Action)
    requires Enabled(s, a)
    ensures s.log <= Step(s, a).log
  {
  }

  /** The batch that leaves was acknowledged, and an acknowledgement tells the truth. */
  lemma AdvancedIsAccepted(s: Sys, c: Change)
    requires FilesReady(s, c) && c.Advance?
    ensures var b := s.client.value.outbox.value.pending.value;
            b.origin < |s.issued| && AcceptedSomewhere(s.log, s.issued[b.origin])
  {
    OutboxIsHealthy(s);
    var b := s.client.value.outbox.value.pending.value;
    assert Truthful(s.log, Ack(b.sequence, BodyOf(b)));
    assert BodyOf(s.log[b.sequence - 1].batch) == Body(b.sequence, s.issued[b.origin]);
  }

  lemma AcceptedStep(s: Sys, a: Action)
    requires FilesFit(s) && OneProcess(s) && Enabled(s, a) && Undisturbed(a) && AllAccepted(s.log, s.issued, s.client)
    ensures AllAccepted(Step(s, a).log, Step(s, a).issued, Step(s, a).client)
  {
    var t := Step(s, a);
    LogGrows(s, a);
    forall o | 0 <= o < |t.issued| && !IsPending(t.client, o)
      ensures AcceptedSomewhere(t.log, t.issued[o])
    {
      BatchOutcome(s, a, o);
      AcceptedIsStable(s.log, t.log[|s.log|..], t.issued[o]);
    }
  }

  lemma BatchOutcome(s: Sys, a: Action, o: nat)
    requires FilesFit(s) && OneProcess(s) && Enabled(s, a) && Undisturbed(a) && AllAccepted(s.log, s.issued, s.client)
    requires o < |Step(s, a).issued| && !IsPending(Step(s, a).client, o)
    ensures o < |s.issued| && Step(s, a).issued[o] == s.issued[o] && AcceptedSomewhere(s.log, s.issued[o])
    ensures Step(s, a).log == s.log + Step(s, a).log[|s.log|..]
  {
    if a.Rename? {
      RenameOutcome(s, a.change, a.dropHeld, o);
    } else {
      assert Step(s, a).issued == s.issued;
      assert IsPending(s.client, o) ==> IsPending(Step(s, a).client, o);
    }
    LogGrows(s, a);
  }

  lemma RenameOutcome(s: Sys, c: Change, dropHeld: bool, o: nat)
    requires FilesReady(s, c) && OneProcess(s) && !c.Mark? && AllAccepted(s.log, s.issued, s.client)
    requires o < |DoRename(s, c, dropHeld).issued| && !IsPending(DoRename(s, c, dropHeld).client, o)
    ensures o < |s.issued| && DoRename(s, c, dropHeld).issued[o] == s.issued[o] && AcceptedSomewhere(s.log, s.issued[o])
  {
    if c.Advance? {
      AdvancedIsAccepted(s, c);
    }
  }

  // ---- the totals ----

  lemma ThereStep(s: Sys, a: Action, uid: int, d: Direction)
    requires Inv(s) && OneProcess(s) && Enabled(s, a) && Undisturbed(a) && AllThere(s, uid, d)
    ensures AllThere(Step(s, a), uid, d)
  {
    if a.Log? {
      AddBytesTotal(s.ram, a.uuid, a.uid, a.up, a.down, uid, d);
      AddBytesTotal(s.counted, a.uuid, a.uid, a.up, a.down, uid, d);
    } else if a.Commit? {
      CommitIsThere(s, uid, d);
    } else if a.Rename? {
      RenameIsThere(s, a.change, a.dropHeld, uid, d);
    } else {
      QuietIsThere(s, a, uid, d);
    }
  }

  lemma QuietIsThere(s: Sys, a: Action, uid: int, d: Direction)
    requires OneProcess(s) && Enabled(s, a) && Undisturbed(a) && !a.Log? && !a.Commit? && !a.Rename?
             && AllThere(s, uid, d)
    ensures AllThere(Step(s, a), uid, d)
  {
    var t := Step(s, a);
    assert t.issued == s.issued && t.ram == s.ram && t.counted == s.counted;
    assert LiveBytes(t, uid, d) == LiveBytes(s, uid, d);
  }

  lemma CommitIsThere(s: Sys, uid: int, d: Direction)
    requires Inv(s) && Enabled(s, Commit) && AllThere(s, uid, d)
    ensures AllThere(DoCommit(s), uid, d)
  {
    var m := s.client.value;
    var rows := m.outbox.value.pending.value.rows;
    assert LiveRows(m) == rows && LiveRows(DoCommit(s).client.value) == [];
    CoveredSplit(s.ram, rows, m.queued);
    CoveredHasNoEmptyUuid(s.ram, rows);
    SubtractTotals(s.ram, rows, uid, d);
  }

  lemma RenameIsThere(s: Sys, c: Change, dropHeld: bool, uid: int, d: Direction)
    requires FilesReady(s, c) && OneProcess(s) && AllThere(s, uid, d)
    ensures AllThere(DoRename(s, c, dropHeld), uid, d)
  {
    var m, t := s.client.value, DoRename(s, c, dropHeld);
    if c.FromCounters? {
      var selected := Pick(m.queued).selected;
      assert LiveRows(m) == [] && LiveRows(t.client.value) == selected;
      FormedExtend(s.issued, EraseRows(selected), uid, d);
      BytesErase(selected, uid, d);
    } else {
      assert t.issued == s.issued;
      assert LiveRows(t.client.value) == LiveRows(m);
    }
  }

  lemma {:induction false} StaysWhole(s: Sys, acts: seq<Action>)
    requires Initial(s) && Exec(s, acts).Some? && forall a :: a in acts ==> Undisturbed(a)
    ensures Inv(Exec(s, acts).value) && Whole(Exec(s, acts).value)
    decreases |acts|
  {
    if acts == [] {
      InitialIsInv(s);
    } else {
      var init, a := acts[..|acts| - 1], acts[|acts| - 1];
      assert a in acts;
      StaysWhole(s, init);
      var t := Exec(s, init).value;
      StepKeeps(t, a);
      OneProcessStep(t, a);
      AcceptedStep(t, a);
      forall uid, d
        ensures AllThere(Step(t, a), uid, d)
      {
        assert AllThere(t, uid, d);
        ThereStep(t, a, uid, d);
      }
    }
  }

  /** Conservation. After every run without exits, power losses, shutdown and markers: for each user and
      direction, the batches formed and the counters, less the live batch that is in both, are exactly
      the bytes counted; and the panel has accepted every batch but the pending one, under this node's
      report or under another writer's with the same bytes. */
  lemma NothingIsLost(s: Sys, acts: seq<Action>)
    requires Initial(s) && Exec(s, acts).Some? && forall a :: a in acts ==> Undisturbed(a)
    ensures var t := Exec(s, acts).value;
            && (forall uid, d ::
                  FormedTotal(t.issued, uid, d) + RamTotal(t.ram, uid, d) - LiveBytes(t, uid, d)
                    == RamTotal(t.counted, uid, d))
            && (forall o :: 0 <= o < |t.issued| && !IsPending(t.client, o) ==> AcceptedSomewhere(t.log, t.issued[o]))
  {
    StaysWhole(s, acts);
    var t := Exec(s, acts).value;
    forall uid, d
      ensures FormedTotal(t.issued, uid, d) + RamTotal(t.ram, uid, d) - LiveBytes(t, uid, d)
              == RamTotal(t.counted, uid, d)
    {
      assert AllThere(t, uid, d);
    }
  }
}
