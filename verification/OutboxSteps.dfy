/** Every action keeps the invariant of the outbox protocol. */
module OutboxSteps {
  import opened Options
  import opened TrafficTypes
  import opened Batching
  import opened Totals
  import opened DrainTotals
  import opened Panel
  import opened AuditHolds
  import opened OutboxMachine
  import opened OutboxInvariant

  // ---- the panel ----

  lemma BarredIsStable(log: seq<Entry>, e: Entry, rows: seq<Row>, lo: nat, hi: nat)
    requires Barred(log, rows, lo, hi)
    ensures Barred(log + [e], rows, lo, hi)
  {
    forall j: nat | lo <= j < hi
      ensures TakenAt(log + [e], rows, j)
    {
      assert TakenAt(log, rows, j);
    }
  }

  lemma LogGrowth(log: seq<Entry>, e: Entry, posts: set<Batch>, issued: seq<seq<Row>>, marked: set<nat>,
                  x: Option<ReportState>)
    requires CellOk(log, posts, issued, marked, x)
    ensures CellOk(log + [e], posts, issued, marked, x)
  {
    if x.Some? && x.value.pending.Some? {
      var b := x.value.pending.value;
      forall p | p in posts && p.origin == b.origin
        ensures Barred(log + [e], issued[b.origin], p.sequence, b.sequence)
        ensures Barred(log + [e], issued[b.origin], b.sequence, p.sequence)
      {
        BarredIsStable(log, e, issued[b.origin], p.sequence, b.sequence);
        BarredIsStable(log, e, issued[b.origin], b.sequence, p.sequence);
      }
    }
  }

  lemma FilesSurviveGrowth(log: seq<Entry>, e: Entry, issued: seq<seq<Row>>, x: Option<ReportState>,
                           y: Option<ReportState>)
    requires FilesOk(log, issued, x, y)
    ensures FilesOk(log + [e], issued, x, y)
  {
    if x.Some? && y.Some? && x.value.pending.Some? && y.value.pending.Some?
       && x.value.pending.value.origin == y.value.pending.value.origin < |issued| {
      var b, c := x.value.pending.value, y.value.pending.value;
      BarredIsStable(log, e, issued[b.origin], b.sequence, c.sequence);
      BarredIsStable(log, e, issued[b.origin], c.sequence, b.sequence);
    }
  }

  lemma PostsSurviveGrowth(log: seq<Entry>, e: Entry, posts: set<Batch>, issued: seq<seq<Row>>, launched: set<nat>)
    requires PostsOk(log, posts, issued, launched)
    ensures PostsOk(log + [e], posts, issued, launched)
  {
    forall p, q | p in posts && q in posts && p.origin == q.origin
      ensures Barred(log + [e], issued[p.origin], p.sequence, q.sequence)
    {
      BarredIsStable(log, e, issued[p.origin], p.sequence, q.sequence);
    }
  }

  lemma RepliesSurviveGrowth(log: seq<Entry>, e: Entry, replies: set<Reply>)
    requires RepliesOk(log, replies)
    ensures RepliesOk(log + [e], replies)
  {
    forall r | r in replies
      ensures Truthful(log + [e], r)
    {
      TruthIsStable(log, [e], r);
    }
  }

  /** The heart of at-most-once: a request that is charged now belongs to a batch that was not
      charged under any other sequence. */
  lemma NotChargedBefore(log: seq<Entry>, posts: set<Batch>, issued: seq<seq<Row>>, launched: set<nat>, b: Batch)
    requires PostsOk(log, posts, issued, launched) && LogOk(log, posts)
    requires b in posts && b.sequence == |log| + 1
    ensures b.origin !in ChargedOrigins(log)
  {
    forall i | 0 <= i < |log| && log[i].mine
      ensures log[i].batch.origin != b.origin
    {
      var p := log[i].batch;
      assert p in posts;
      assert !TakenAt(log, EraseRows(p.rows), p.sequence);
    }
  }

  lemma AcceptedReportLedger(s: Sys, e: Entry, uid: int, d: Direction)
    requires FilesFit(s) && Ledger(s, uid, d)
    requires e.batch.sequence == |s.log| + 1 && (e.mine ==> e.batch in s.posts)
    ensures Ledger(s.(log := s.log + [e]), uid, d)
  {
    var t := s.(log := s.log + [e]);
    ChargedTotalExtend(s.log, e, uid, d);
    assert Debt(t, uid, d) == Debt(s, uid, d) && BaseBytes(t, uid, d) == BaseBytes(s, uid, d);
    if e.mine {
      NotChargedBefore(s.log, s.posts, s.issued, s.launched, e.batch);
      IssuedTotalAdd(s.issued, ChargedOrigins(s.log), e.batch.origin, uid, d);
      BytesErase(e.batch.rows, uid, d);
    } else {
      assert ChargedOrigins(s.log) + {} == ChargedOrigins(s.log);
    }
  }

  lemma FilesSurviveReport(s: Sys, e: Entry)
    requires FilesFit(s)
    requires e.batch.sequence == |s.log| + 1 && (e.mine ==> e.batch in s.posts)
    ensures FilesFit(s.(log := s.log + [e]))
  {
    LogGrowth(s.log, e, s.posts, s.issued, s.marked, s.visible);
    LogGrowth(s.log, e, s.posts, s.issued, s.marked, s.durable);
    FilesSurviveGrowth(s.log, e, s.issued, s.visible, s.durable);
    PostsSurviveGrowth(s.log, e, s.posts, s.issued, s.launched);
    RepliesSurviveGrowth(s.log, e, s.replies);
  }

  lemma AcceptedReport(s: Sys, e: Entry)
    requires Inv(s)
    requires e.batch.sequence == |s.log| + 1 && (e.mine ==> e.batch in s.posts)
    ensures Inv(s.(log := s.log + [e]))
  {
    FilesSurviveReport(s, e);
    forall uid, d
      ensures Ledger(s.(log := s.log + [e]), uid, d)
    {
      assert Ledger(s, uid, d);
      AcceptedReportLedger(s, e, uid, d);
    }
  }

  /** The ledger knows the files, the batches and the totals of the counters, and nothing else. */
  lemma SameLedger(s: Sys, t: Sys, uid: int, d: Direction)
    requires Ledger(s, uid, d) && t.log == s.log && t.issued == s.issued && t.launched == s.launched
    requires t.visible == s.visible && t.durable == s.durable && t.counted == s.counted && t.repeated == s.repeated
    requires t.taken == s.taken && t.lent == s.lent && t.spent == s.spent
    requires RamTotal(t.ram, uid, d) - LiveBytes(t, uid, d) + BaseBytes(t, uid, d)
          <= RamTotal(s.ram, uid, d) - LiveBytes(s, uid, d) + BaseBytes(s, uid, d)
    ensures Ledger(t, uid, d)
  {
  }

  lemma NewReply(s: Sys, r: Reply)
    requires Inv(s) && Truthful(s.log, r)
    ensures Inv(s.(replies := s.replies + {r}))
  {
    var t := s.(replies := s.replies + {r});
    forall uid, d
      ensures Ledger(t, uid, d)
    {
      assert Ledger(s, uid, d);
      SameLedger(s, t, uid, d);
    }
  }

  lemma DeliverKeeps(s: Sys, b: Batch)
    requires Inv(s) && Enabled(s, Deliver(b))
    ensures Inv(Step(s, Deliver(b)))
  {
    var t := s.(log := Charge(s.log, b, true));
    if b.sequence == |s.log| + 1 {
      AcceptedReport(s, Entry(b, true));
    } else {
      assert t == s;
    }
    AnswersAreTruthful(s.log, b, true);
    NewReply(t, Answer(s.log, b));
  }

  lemma ForeignKeeps(s: Sys, b: Batch)
    requires Inv(s) && Enabled(s, Foreign(b))
    ensures Inv(Step(s, Foreign(b)))
  {
    AcceptedReport(s, Entry(b, false));
  }

  // ---- counting ----

  lemma AddBytesTotal(m: Counters, uuid: string, uid: int, up: nat, down: nat, who: int, d: Direction)
    requires uuid in m ==> m[uuid].uid == uid
    ensures RamTotal(AddBytes(m, uuid, uid, up, down), who, d)
         == RamTotal(m, who, d) + RowBytes(Row(uid, up, down, uuid), who, d)
  {
    RamTotalUpdate(m, uuid, AddBytes(m, uuid, uid, up, down)[uuid], who, d);
  }

  lemma LogKeepsLedger(s: Sys, uuid: string, uid: int, up: nat, down: nat, who: int, d: Direction)
    requires Inv(s) && Enabled(s, Log(uuid, uid, up, down))
    ensures Ledger(Step(s, Log(uuid, uid, up, down)), who, d)
  {
    assert Ledger(s, who, d);
    AddBytesTotal(s.ram, uuid, uid, up, down, who, d);
    AddBytesTotal(s.counted, uuid, uid, up, down, who, d);
  }

  lemma LogKeeps(s: Sys, uuid: string, uid: int, up: nat, down: nat)
    requires Inv(s) && Enabled(s, Log(uuid, uid, up, down))
    ensures Inv(Step(s, Log(uuid, uid, up, down)))
  {
    LogKeepsCounters(s, uuid, uid, up, down);
    forall who, d
      ensures Ledger(Step(s, Log(uuid, uid, up, down)), who, d)
    {
      LogKeepsLedger(s, uuid, uid, up, down, who, d);
    }
  }

  lemma LogKeepsCounters(s: Sys, uuid: string, uid: int, up: nat, down: nat)
    requires CountersOk(s) && LiveOk(s) && Enabled(s, Log(uuid, uid, up, down))
    ensures CountersOk(Step(s, Log(uuid, uid, up, down))) && LiveOk(Step(s, Log(uuid, uid, up, down)))
  {
    var t := Step(s, Log(uuid, uid, up, down));
    assert forall r :: RowCovered(s.ram, r) ==> RowCovered(t.ram, r);
  }

  // ---- the process goes away ----

  lemma ExitKeeps(s: Sys)
    requires Inv(s)
    ensures Inv(Step(s, Exit))
  {
    var t := Step(s, Exit);
    forall uid, d
      ensures Ledger(t, uid, d)
    {
      assert Ledger(s, uid, d);
      assert RamTotal(map[], uid, d) == 0;
    }
  }

  lemma MarkingKeepsCell(s: Sys, x: Option<ReportState>)
    requires CellOk(s.log, s.posts, s.issued, s.marked, x)
    ensures CellOk(s.log, s.posts, s.issued, s.marked + MarkedBy(x), x)
  {
  }

  /** The rows that a file promises again are worth no more than what the other file promises. */
  lemma DurablePromises(s: Sys, uid: int, d: Direction)
    requires FilesFit(s) && RowsFit(s)
    ensures BufferBytes(s.durable, uid, d) <= BufferBytes(s.visible, uid, d) + Bytes(s.taken, uid, d)
    ensures PromisedTwice(s.visible, s.durable, s.launched, s.lent, uid, d) <= Unsent(s.launched, s.visible, uid, d)
  {
    TakenIsValid(s);
    var all := BufferOf(s.visible) + s.taken;
    assert multiset(all) == multiset(BufferOf(s.visible)) + multiset(s.taken);
    BytesOfSome(BufferOf(s.durable), all, uid, d);
    BytesAppend(BufferOf(s.visible), s.taken, uid, d);
    if Unlaunched(s.visible, s.launched) {
      if s.lent == [] {
        BytesNonNegative(s.visible.value.pending.value.rows, uid, d);
      } else {
        BytesOfSome(s.lent, s.visible.value.pending.value.rows, uid, d);
      }
    }
  }

  lemma TakenIsValid(s: Sys)
    requires FilesFit(s) && RowsFit(s)
    ensures ValidRows(s.taken) && ValidRows(s.spent)
  {
    forall r | r in s.taken
      ensures ValidRow(r)
    {
      assert r in multiset(s.taken);
      assert r in multiset(BufferOf(s.durable));
    }
    forall r | r in s.spent
      ensures r in s.taken
    {
      assert r in multiset(s.spent);
      assert r in multiset(s.taken);
    }
  }

  /** A power loss brings back the durable file, and with it the rows that were spent since. */
  lemma ReversalKeepsLedger(s: Sys, uid: int, d: Direction)
    requires FilesFit(s) && RowsFit(s) && Ledger(s, uid, d)
    ensures Ledger(DoPowerLoss(s, false), uid, d)
  {
    assert RamTotal(map[], uid, d) == 0;
    DurablePromises(s, uid, d);
    BytesAppend(s.repeated, s.spent, uid, d);
  }

  lemma PowerLossKeepsLedger(s: Sys, keep: bool, uid: int, d: Direction)
    requires FilesFit(s) && RowsFit(s) && Ledger(s, uid, d)
    ensures Ledger(DoPowerLoss(s, keep), uid, d)
  {
    if keep {
      assert RamTotal(map[], uid, d) == 0;
    } else {
      ReversalKeepsLedger(s, uid, d);
    }
  }

  lemma PowerLossKeepsFiles(s: Sys, keep: bool)
    requires FilesFit(s) && RowsFit(s)
    ensures FilesFit(DoPowerLoss(s, keep)) && RowsFit(DoPowerLoss(s, keep))
  {
    MarkingKeepsCell(s, if keep then s.visible else s.durable);
    TakenIsValid(s);
  }

  lemma PowerLossKeeps(s: Sys, keep: bool)
    requires Inv(s)
    ensures Inv(Step(s, PowerLoss(keep)))
  {
    PowerLossKeepsFiles(s, keep);
    forall uid, d
      ensures Ledger(DoPowerLoss(s, keep), uid, d)
    {
      assert Ledger(s, uid, d);
      PowerLossKeepsLedger(s, keep, uid, d);
    }
  }

  // ---- memory-only actions ----

  lemma BootKeeps(s: Sys)
    requires Inv(s) && Enabled(s, Boot)
    ensures Inv(Step(s, Boot))
  {
    var t := s.(client := Some(FRESH_CLIENT));
    assert Covered(s.ram, []);
    forall uid, d
      ensures Ledger(t, uid, d)
    {
      assert Ledger(s, uid, d);
      SameLedger(s, t, uid, d);
    }
  }

  lemma LoadKeeps(s: Sys)
    requires Inv(s) && Enabled(s, Load)
    ensures Inv(Step(s, Load))
  {
    var t := DoLoad(s);
    assert LiveRows(t.client.value) == LiveRows(s.client.value);
    forall uid, d
      ensures Ledger(t, uid, d)
    {
      assert Ledger(s, uid, d);
      SameLedger(s, t, uid, d);
    }
  }

  lemma MemoryOnly(s: Sys, m: Mem)
    requires Inv(s) && s.client.Some?
    requires m.outbox == s.client.value.outbox && m.unsynced == s.client.value.unsynced
    requires m.committed == s.client.value.committed && m.drainBase == s.client.value.drainBase
    requires m.draining == s.client.value.draining && LiveRows(m) == LiveRows(s.client.value)
    requires FlagsOk(m) && Covered(s.ram, LiveRows(m) + m.queued)
    ensures Inv(s.(client := Some(m)))
  {
    var t := s.(client := Some(m));
    forall uid, d
      ensures Ledger(t, uid, d)
    {
      assert Ledger(s, uid, d);
      SameLedger(s, t, uid, d);
    }
  }

  lemma TakeBufferKeeps(s: Sys)
    requires Inv(s) && Enabled(s, TakeBuffer)
    ensures Inv(Step(s, TakeBuffer))
  {
    MemoryOnly(s, s.client.value.(recovered := true));
  }

  lemma CaptureKeeps(s: Sys, rows: seq<Row>)
    requires Inv(s) && Enabled(s, Capture(rows))
    ensures Inv(Step(s, Capture(rows)))
  {
    var m := s.client.value.(queued := rows);
    assert LiveRows(m) + m.queued == rows;
    MemoryOnly(s, m);
  }

  lemma EndRoundKeeps(s: Sys)
    requires Inv(s) && Enabled(s, EndRound)
    ensures Inv(Step(s, EndRound))
  {
    var m := s.client.value;
    var n := m.(queued := []);
    CoveredSplit(s.ram, LiveRows(m), m.queued);
    assert Latest(n) == Latest(m) && LiveRows(n) + [] == LiveRows(m);
    MemoryOnly(s, n);
  }

  lemma DrainDoneKeeps(s: Sys)
    requires Inv(s) && Enabled(s, DrainDone)
    ensures Inv(Step(s, DrainDone))
  {
    MemoryOnly(s, s.client.value.(drainSaved := true));
  }

  lemma StartDrainKeepsLedger(s: Sys, uid: int, d: Direction)
    requires FilesFit(s) && Ledger(s, uid, d) && Enabled(s, StartDrain)
    ensures Ledger(Step(s, StartDrain), uid, d)
  {
    EraseBytes(s.launched, s.client.value.outbox.value, uid, d);
    SameLedger(s, Step(s, StartDrain), uid, d);
  }

  lemma StartDrainKeepsRows(s: Sys)
    requires FilesFit(s) && RowsFit(s) && Enabled(s, StartDrain)
    ensures FilesFit(Step(s, StartDrain)) && RowsFit(Step(s, StartDrain))
    ensures LiveRows(Step(s, StartDrain).client.value) == LiveRows(s.client.value)
  {
    var t := Step(s, StartDrain);
    OutboxIsHealthy(s);
    assert BufferOf(s.visible) == EraseRows(t.client.value.drainBase);
  }

  lemma StartDrainKeeps(s: Sys)
    requires Inv(s) && Enabled(s, StartDrain)
    ensures Inv(Step(s, StartDrain))
  {
    StartDrainKeepsRows(s);
    forall uid, d
      ensures Ledger(Step(s, StartDrain), uid, d)
    {
      assert Ledger(s, uid, d);
      StartDrainKeepsLedger(s, uid, d);
    }
  }

  // ---- sending ----

  lemma SendKeepsCell(s: Sys, x: Option<ReportState>)
    requires FilesFit(s) && Enabled(s, Send) && (x == s.visible || x == s.durable)
    ensures CellOk(s.log, DoSend(s).posts, s.issued, s.marked, x)
  {
    var b := EraseBatch(s.client.value.outbox.value.pending.value);
    assert s.visible.value.pending == Some(b);
  }

  lemma SendKeepsPosts(s: Sys)
    requires FilesFit(s) && Enabled(s, Send)
    ensures PostsOk(s.log, DoSend(s).posts, s.issued, DoSend(s).launched)
  {
    var b := EraseBatch(s.client.value.outbox.value.pending.value);
    assert s.visible.value.pending == Some(b);
    EraseTwice(s.client.value.outbox.value.pending.value.rows);
  }

  /** Two files with the same batch have the same rows in it. */
  lemma SameBatchSameRows(s: Sys)
    requires FilesFit(s) && SamePending(s.visible, s.durable)
    ensures s.visible.value.pending.value.rows == s.durable.value.pending.value.rows
  {
    assert s.visible.value.pending.value == EraseBatch(s.visible.value.pending.value);
    assert s.durable.value.pending.value == EraseBatch(s.durable.value.pending.value);
  }

  /** Launching the pending batch does not change the debt: the batch was promised by the durable file
      too, or what was lent of it is spent. */
  lemma LaunchKeepsDebt(visible: Option<ReportState>, durable: Option<ReportState>, launched: set<nat>,
                        taken: seq<Row>, lent: seq<Row>, spent: seq<Row>, uid: int, d: Direction)
    requires visible.Some? && visible.value.pending.Some? && visible.value.pending.value.origin !in launched
    requires SamePending(visible, durable) ==>
               lent == [] && visible.value.pending.value.rows == durable.value.pending.value.rows
    ensures DebtOf(visible, durable, launched + {visible.value.pending.value.origin}, taken, lent, spent + lent, uid, d)
         == DebtOf(visible, durable, launched, taken, lent, spent, uid, d)
  {
    BytesAppend(spent, lent, uid, d);
  }

  lemma SendKeepsDebt(s: Sys, uid: int, d: Direction)
    requires FilesFit(s) && RowsFit(s) && Enabled(s, Send)
    ensures Debt(DoSend(s), uid, d) == Debt(s, uid, d)
  {
    SendLaunches(s);
    if s.visible.value.pending.value.origin !in s.launched {
      SharedBatch(s);
      LaunchKeepsDebt(s.visible, s.durable, s.launched, s.taken, s.lent, s.spent, uid, d);
    }
  }

  lemma SendLaunches(s: Sys)
    requires Agrees(s) && Enabled(s, Send)
    ensures s.visible.Some? && s.visible.value.pending.Some?
    ensures var o, t := s.visible.value.pending.value.origin, DoSend(s);
            && t == s.(posts := t.posts, launched := t.launched, posted := t.posted, spent := t.spent)
            && t.launched == s.launched + {o}
            && (o in s.launched ==> t.launched == s.launched)
            && t.spent == if o in s.launched then s.spent else s.spent + s.lent
  {
  }

  lemma SharedBatch(s: Sys)
    requires FilesFit(s) && RowsFit(s)
    ensures SamePending(s.visible, s.durable) ==>
              s.lent == [] && s.visible.value.pending.value.rows == s.durable.value.pending.value.rows
  {
    if SamePending(s.visible, s.durable) {
      SameBatchSameRows(s);
    }
  }

  lemma SendKeepsFiles(s: Sys)
    requires FilesFit(s) && Enabled(s, Send)
    ensures FilesFit(DoSend(s))
  {
    SendKeepsCell(s, s.visible);
    SendKeepsCell(s, s.durable);
    SendKeepsPosts(s);
    OutboxIsHealthy(s);
  }

  lemma SendKeepsLedger(s: Sys, uid: int, d: Direction)
    requires FilesFit(s) && RowsFit(s) && Ledger(s, uid, d) && Enabled(s, Send)
    ensures Ledger(DoSend(s), uid, d)
  {
    OutboxIsHealthy(s);
    var b := s.client.value.outbox.value.pending.value;
    IssuedTotalAdd(s.issued, s.launched, b.origin, uid, d);
    BytesErase(b.rows, uid, d);
    SendKeepsDebt(s, uid, d);
  }

  lemma SendKeepsRows(s: Sys)
    requires FilesFit(s) && RowsFit(s) && Enabled(s, Send)
    ensures var t := DoSend(s);
            && RowsOk(t.visible, t.durable, t.launched, t.taken, t.lent, t.spent)
            && SpentOk(t.posts, t.spent, t.repeated)
  {
    var t := DoSend(s);
    var b := s.visible.value.pending.value;
    assert t.posts == s.posts + {b};
    assert multiset(s.spent + s.lent) == multiset(s.spent) + multiset(s.lent);
    forall r | r in t.spent
      ensures exists p :: p in t.posts && r in p.rows
    {
      if r in s.spent {
        var p :| p in s.posts && r in p.rows;
        assert p in t.posts;
      } else {
        assert r in multiset(s.lent);
        assert r in multiset(b.rows) && b in t.posts;
      }
    }
  }

  lemma SendKeeps(s: Sys)
    requires Inv(s) && Enabled(s, Send)
    ensures Inv(Step(s, Send))
  {
    SendKeepsFiles(s);
    SendKeepsRows(s);
    forall uid, d
      ensures Ledger(DoSend(s), uid, d)
    {
      assert Ledger(s, uid, d);
      SendKeepsLedger(s, uid, d);
    }
  }

  // ---- committing ----

  lemma CommitKeepsCounters(s: Sys)
    requires CountersOk(s) && LiveOk(s) && Enabled(s, Commit)
    ensures CountersOk(DoCommit(s)) && LiveOk(DoCommit(s))
  {
    var t, m := DoCommit(s), s.client.value;
    var rows := m.outbox.value.pending.value.rows;
    assert LiveRows(m) == rows && LiveRows(t.client.value) == [];
    CoveredSplit(s.ram, rows, m.queued);
    SubtractKeepsTheRest(s.ram, rows);
    forall r | r in m.queued
      ensures RowCovered(t.ram, r)
    {
      assert r.uuid in Uuids(m.queued);
    }
    assert [] + m.queued == m.queued;
  }

  lemma CommitKeepsLedger(s: Sys, uid: int, d: Direction)
    requires CountersOk(s) && LiveOk(s) && Enabled(s, Commit) && Ledger(s, uid, d)
    ensures Ledger(DoCommit(s), uid, d)
  {
    var t, m := DoCommit(s), s.client.value;
    var rows := m.outbox.value.pending.value.rows;
    assert LiveRows(m) == rows && LiveRows(t.client.value) == [];
    CoveredSplit(s.ram, rows, m.queued);
    CoveredHasNoEmptyUuid(s.ram, rows);
    SubtractTotals(s.ram, rows, uid, d);
    SameLedger(s, t, uid, d);
  }

  lemma CommitKeeps(s: Sys)
    requires Inv(s) && Enabled(s, Commit)
    ensures Inv(Step(s, Commit))
  {
    CommitKeepsCounters(s);
    forall uid, d
      ensures Ledger(DoCommit(s), uid, d)
    {
      assert Ledger(s, uid, d);
      CommitKeepsLedger(s, uid, d);
    }
  }

  // ---- synchronising the directory ----

  lemma SyncKeepsLedger(s: Sys, uid: int, d: Direction)
    requires Agrees(s) && Ledger(s, uid, d) && Enabled(s, SyncDirectory)
    ensures Ledger(DoSync(s), uid, d)
  {
    assert LiveRows(DoSync(s).client.value) == LiveRows(s.client.value);
  }

  /** One file is both the visible and the durable one. */
  lemma OneFile(s: Sys)
    requires FilesFit(s)
    ensures CellOk(s.log, s.posts, s.issued, s.marked + MarkedBy(s.visible), s.visible)
    ensures FilesOk(s.log, s.issued, s.visible, s.visible)
    ensures HistoryOk(s.issued, s.launched, s.marked + MarkedBy(s.visible), s.visible)
    ensures RowsOk(s.visible, s.visible, s.launched, [], [], []) && LentOk(s.visible, s.visible, [], [])
  {
    MarkingKeepsCell(s, s.visible);
  }

  lemma WriteBackKeeps(s: Sys)
    requires Inv(s)
    ensures Inv(Step(s, WriteBack))
  {
    OneFile(s);
    forall uid, d
      ensures Ledger(DoWriteBack(s), uid, d)
    {
      assert Ledger(s, uid, d);
      WriteBackKeepsLedger(s, uid, d);
    }
  }

  lemma WriteBackKeepsLedger(s: Sys, uid: int, d: Direction)
    requires Ledger(s, uid, d)
    ensures Ledger(DoWriteBack(s), uid, d)
  {
  }

  lemma SyncKeepsFiles(s: Sys)
    requires FilesFit(s) && RowsFit(s) && Enabled(s, SyncDirectory)
    ensures FilesFit(DoSync(s)) && RowsFit(DoSync(s))
    ensures LiveRows(DoSync(s).client.value) == LiveRows(s.client.value)
  {
    OneFile(s);
    SyncedClient(s);
  }

  lemma SyncedClient(s: Sys)
    requires Agrees(s) && Enabled(s, SyncDirectory) && FlagsOk(s.client.value)
    ensures var m, n := s.client.value, DoSync(s).client.value;
            && Latest(n) == Latest(m) && LiveRows(n) == LiveRows(m) && FlagsOk(n)
            && n.draining == m.draining && n.drainBase == m.drainBase && n.queued == m.queued
  {
  }

  lemma SyncKeeps(s: Sys)
    requires Inv(s) && Enabled(s, SyncDirectory)
    ensures Inv(Step(s, SyncDirectory))
  {
    SyncKeepsFiles(s);
    forall uid, d
      ensures Ledger(DoSync(s), uid, d)
    {
      assert Ledger(s, uid, d);
      SyncKeepsLedger(s, uid, d);
    }
  }

  // ---- replacing the report state ----

  /** What the invariant says about client memory when it is about to change the file. */
  ghost predicate ReadyToChange(s: Sys, c: Change) {
    Inv(s) && s.client.Some? && CanChange(s, s.client.value, c)
  }

  /** As far as it is about files, memory, requests and answers. */
  predicate FilesReady(s: Sys, c: Change) {
    FilesFit(s) && s.client.Some? && CanChange(s, s.client.value, c)
  }

  lemma PickIsValid(rows: seq<Row>)
    requires ValidRows(rows) && rows != []
    ensures ValidRows(Pick(rows).selected) && ValidRows(Pick(rows).rest)
    ensures 0 < |Pick(rows).selected| <= MAX_TRAFFIC_ROWS && |Pick(rows).rest| <= |rows|
  {
    PickSizes(rows);
    PickMembers(rows);
  }

  /** Every state the client writes is one that it would load again. */
  lemma NextIsHealthy(s: Sys, c: Change)
    requires FilesReady(s, c)
    ensures Healthy(NextState(s.client.value, c, |s.issued|))
  {
    var m := s.client.value;
    if !c.Init? {
      OutboxIsHealthy(s);
    }
    match c {
      case FromBuffer => PickIsValid(m.outbox.value.buffered);
      case FromCounters => PickIsValid(m.queued);
      case Advance(now) => TrimMembers(m.outbox.value.held, now);
      case Finish(now) =>
        var o := m.outbox.value;
        TrimMembers(o.held + [Hold(o.resolution.value.at, o.pending.value)], now);
      case Drain(rows) => TailIsValid(rows, LiveRows(m));
      case _ =>
    }
  }

  lemma NextPendingIsOk(s: Sys, c: Change)
    requires FilesReady(s, c)
    ensures PendingOk(s.log, s.posts, DoRename(s, c, false).issued, s.marked, NextState(s.client.value, c, |s.issued|))
  {
    if c.Rebase? {
      RebasePendingIsOk(s, c);
    } else if !c.Init? {
      OutboxIsHealthy(s);
    }
  }

  /** An exact collision proves that the panel gave the old sequence away. */
  lemma CollisionBars(s: Sys, c: Change)
    requires FilesReady(s, c) && c.Rebase?
    ensures var b := s.client.value.outbox.value.pending.value;
            Genuine(s.issued, b) && TakenAt(s.log, s.issued[b.origin], b.sequence)
  {
    OutboxIsHealthy(s);
    RebaseIsProof(s.log, c.conflict, s.client.value.outbox.value.pending.value);
  }

  lemma RebasePendingIsOk(s: Sys, c: Change)
    requires FilesReady(s, c) && c.Rebase?
    ensures PendingOk(s.log, s.posts, s.issued, s.marked, NextState(s.client.value, c, |s.issued|))
  {
    var b := s.client.value.outbox.value.pending.value;
    OutboxIsHealthy(s);
    CollisionBars(s, c);
    var n := b.sequence + 1;
    forall p | p in s.posts && p.origin == b.origin
      ensures Barred(s.log, s.issued[b.origin], p.sequence, n) && Barred(s.log, s.issued[b.origin], n, p.sequence)
    {
      assert Barred(s.log, s.issued[b.origin], p.sequence, b.sequence)
             && Barred(s.log, s.issued[b.origin], b.sequence, p.sequence);
    }
  }

  /** A rebase leaves the old sequence behind as one that the panel gave away. */
  lemma RebaseKeepsFilesApart(s: Sys, c: Change, dropHeld: bool)
    requires FilesReady(s, c) && c.Rebase?
    ensures var t := DoRename(s, c, dropHeld); FilesOk(t.log, t.issued, t.visible, t.durable)
  {
    CollisionBars(s, c);
  }

  lemma NewBatchIsApart(s: Sys, c: Change, dropHeld: bool)
    requires FilesReady(s, c) && (c.FromBuffer? || c.FromCounters?)
    ensures var t := DoRename(s, c, dropHeld); FilesOk(t.log, t.issued, t.visible, t.durable)
  {
  }

  lemma RenameKeepsFilesApart(s: Sys, c: Change, dropHeld: bool)
    requires FilesReady(s, c)
    ensures var t := DoRename(s, c, dropHeld); FilesOk(t.log, t.issued, t.visible, t.durable)
  {
    if c.Rebase? {
      RebaseKeepsFilesApart(s, c, dropHeld);
    } else if c.FromBuffer? || c.FromCounters? {
      NewBatchIsApart(s, c, dropHeld);
    } else {
      OtherChangesKeepTheBatch(s, c, dropHeld);
    }
  }

  /** Only a rebase and a new batch change which batch is pending, or under which sequence. */
  lemma OtherChangesKeepTheBatch(s: Sys, c: Change, dropHeld: bool)
    requires FilesReady(s, c) && !c.Rebase? && !c.FromBuffer? && !c.FromCounters?
    ensures var t := DoRename(s, c, dropHeld);
            t.visible.value.pending.Some? ==> s.visible.Some? && s.visible.value.pending == t.visible.value.pending
  {
  }

  lemma NewFileIsOk(s: Sys, c: Change, dropHeld: bool)
    requires FilesReady(s, c)
    ensures var t := DoRename(s, c, dropHeld); CellOk(t.log, t.posts, t.issued, t.marked, t.visible)
  {
    var t := DoRename(s, c, dropHeld);
    var y := t.client.value.unsynced.value;
    NextIsHealthy(s, c);
    NextPendingIsOk(s, c);
    EraseHealthy(y);
    PendingErase(t.log, t.posts, t.issued, t.marked, y);
    SaveLoadRoundTrip(y);
  }

  /** What a change appends to the batches ever formed. */
  lemma RenameExtendsIssued(s: Sys, c: Change, dropHeld: bool)
    requires FilesReady(s, c)
    ensures var t := DoRename(s, c, dropHeld);
            t.issued == s.issued || (|t.issued| == |s.issued| + 1 && t.issued[..|s.issued|] == s.issued
                                     && ValidRows(t.issued[|s.issued|]))
  {
    if c.FromBuffer? || c.FromCounters? {
      var x := NextState(s.client.value, c, |s.issued|);
      NextIsHealthy(s, c);
      EraseRowsValid(x.pending.value.rows);
    }
  }

  lemma MoreBatches(s: Sys, issued: seq<seq<Row>>)
    requires FilesFit(s)
    requires issued == s.issued || (|issued| == |s.issued| + 1 && issued[..|s.issued|] == s.issued
                                    && ValidRows(issued[|s.issued|]))
    ensures CellOk(s.log, s.posts, issued, s.marked, s.durable)
    ensures PostsOk(s.log, s.posts, issued, s.launched) && HistoryOk(issued, s.launched, s.marked, s.durable)
  {
    assert forall i :: 0 <= i < |s.issued| ==> issued[i] == s.issued[i];
  }

  lemma RenameKeepsCells(s: Sys, c: Change, dropHeld: bool)
    requires FilesReady(s, c)
    ensures var t := DoRename(s, c, dropHeld);
            && CellOk(t.log, t.posts, t.issued, t.marked, t.visible)
            && CellOk(t.log, t.posts, t.issued, t.marked, t.durable)
            && PostsOk(t.log, t.posts, t.issued, t.launched)
            && HistoryOk(t.issued, t.launched, t.marked, t.durable)
  {
    NewFileIsOk(s, c, dropHeld);
    RenameExtendsIssued(s, c, dropHeld);
    MoreBatches(s, DoRename(s, c, dropHeld).issued);
  }

  lemma RenameKeepsLiveRows(s: Sys, c: Change, dropHeld: bool)
    requires ReadyToChange(s, c)
    ensures LiveOk(DoRename(s, c, dropHeld))
    ensures FlagsOk(DoRename(s, c, dropHeld).client.value)
  {
    var m, n := s.client.value, DoRename(s, c, dropHeld).client.value;
    if c.FromCounters? {
      assert LiveRows(m) == [] && [] + m.queued == m.queued;
      PickKeepsUuidsApart(m.queued);
      DistinctUuidsSplit(Pick(m.queued).selected, Pick(m.queued).rest);
      PickMembers(m.queued);
      assert LiveRows(n) == Pick(m.queued).selected;
    } else {
      CoveredSplit(s.ram, LiveRows(m), m.queued);
      CoveredSplit(s.ram, LiveRows(n), n.queued);
    }
  }

  /** Bytes a report state promises, less those that are still in the counters. */
  function Promised(launched: set<nat>, x: ReportState, live: seq<Row>, uid: int, d: Direction): int {
    Unsent(launched, Some(x), uid, d) + BufferBytes(Some(x), uid, d) - Bytes(live, uid, d)
  }

  lemma OutboxBytesNonNegative(s: Sys, uid: int, d: Direction)
    requires FilesFit(s) && s.client.Some? && Ready(s.client.value)
    ensures 0 <= Bytes(s.client.value.outbox.value.buffered, uid, d)
    ensures 0 <= Unsent(s.launched, s.client.value.outbox, uid, d)
  {
    OutboxIsHealthy(s);
    var o := s.client.value.outbox.value;
    if o.pending.Some? {
      BytesNonNegative(o.pending.value.rows, uid, d);
    }
    BytesNonNegative(o.buffered, uid, d);
  }

  /** Bytes that a change lets go: the batch leaves the outbox. */
  function LetGo(s: Sys, c: Change, uid: int, d: Direction): int {
    if c.Advance? || c.Finish? then Unsent(s.launched, s.visible, uid, d) else 0
  }

  /** A new batch from the buffer promises what it takes from there. */
  lemma BufferedBatchPromises(s: Sys, uid: int, d: Direction)
    requires FilesReady(s, FromBuffer)
    ensures var m, n := s.client.value, DoRename(s, FromBuffer, false).client.value;
            && LiveRows(m) == [] && LiveRows(n) == []
            && Promised(s.launched, n.unsynced.value, [], uid, d) == Promised(s.launched, m.outbox.value, [], uid, d)
  {
    PickBytes(s.client.value.outbox.value.buffered, uid, d);
  }

  /** A new batch from the counters promises no more than is still in them. */
  lemma CountedBatchPromises(s: Sys, uid: int, d: Direction)
    requires FilesReady(s, FromCounters)
    ensures var m, n := s.client.value, DoRename(s, FromCounters, false).client.value;
            Promised(s.launched, n.unsynced.value, LiveRows(n), uid, d)
              <= Promised(s.launched, m.outbox.value, LiveRows(m), uid, d)
  {
    OutboxBytesNonNegative(s, uid, d);
    assert LiveRows(s.client.value) == [];
  }

  /** Except for the drain, no change promises bytes that were not promised or counted before. */
  lemma NoNewPromises(s: Sys, c: Change, uid: int, d: Direction)
    requires FilesReady(s, c) && !c.Drain? && !c.Init?
    ensures var m, n := s.client.value, DoRename(s, c, false).client.value;
            Promised(s.launched, n.unsynced.value, LiveRows(n), uid, d) + LetGo(s, c, uid, d)
              <= Promised(s.launched, m.outbox.value, LiveRows(m), uid, d)
  {
    if c.FromBuffer? {
      BufferedBatchPromises(s, uid, d);
    } else if c.FromCounters? {
      CountedBatchPromises(s, uid, d);
    } else {
      OutboxBytesNonNegative(s, uid, d);
      EraseBytes(s.launched, s.client.value.outbox.value, uid, d);
    }
  }

  lemma HoldsPromiseNothing(s: Sys, c: Change, uid: int, d: Direction)
    requires FilesReady(s, c)
    ensures var n, n' := DoRename(s, c, false).client.value, DoRename(s, c, true).client.value;
            LiveRows(n) == LiveRows(n') &&
            Promised(s.launched, n.unsynced.value, LiveRows(n), uid, d)
              == Promised(s.launched, n'.unsynced.value, LiveRows(n'), uid, d)
  {
  }

  lemma RenameKeepsIssued(s: Sys, c: Change, dropHeld: bool, which: set<nat>, uid: int, d: Direction)
    requires FilesReady(s, c) && forall i :: i in which ==> i < |s.issued|
    ensures IssuedTotal(DoRename(s, c, dropHeld).issued, which, uid, d) == IssuedTotal(s.issued, which, uid, d)
  {
    var t := DoRename(s, c, dropHeld);
    if c.FromBuffer? || c.FromCounters? {
      IssuedTotalExtend(s.issued, t.issued[|s.issued|], which, uid, d);
    }
  }

  /** Replacing a file by one that promises no more keeps the client backed. */
  lemma Replaced(s: Sys, t: Sys, o: ReportState, y: ReportState, k: int, l: int, uid: int, d: Direction)
    requires MemoryBacked(s, k, uid, d)
    requires s.client.Some? && t.client.Some? && !s.client.value.draining && !t.client.value.draining
    requires s.visible == Some(Erase(o)) && t.visible == Some(Erase(y))
    requires t.launched == s.launched && t.ram == s.ram && t.counted == s.counted && t.repeated == s.repeated
    requires IssuedTotal(t.issued, t.launched, uid, d) == IssuedTotal(s.issued, s.launched, uid, d)
    requires Promised(s.launched, y, LiveRows(t.client.value), uid, d) + l
          <= Promised(s.launched, o, LiveRows(s.client.value), uid, d) + k
    ensures MemoryBacked(t, l, uid, d)
  {
    EraseBytes(s.launched, o, uid, d);
    EraseBytes(s.launched, y, uid, d);
  }

  lemma RenameKeepsMemoryBacked(s: Sys, c: Change, dropHeld: bool, k: int, l: int, uid: int, d: Direction)
    requires ReadyToChange(s, c) && MemoryBacked(s, k, uid, d) && l <= k + LetGo(s, c, uid, d)
    ensures MemoryBacked(DoRename(s, c, dropHeld), l, uid, d)
  {
    var m, t := s.client.value, DoRename(s, c, dropHeld);
    if c.Init? || c.Drain? {
      FirstOrLastFile(s, c, dropHeld, k, uid, d);
    } else {
      RenameKeepsIssued(s, c, dropHeld, s.launched, uid, d);
      NoNewPromises(s, c, uid, d);
      HoldsPromiseNothing(s, c, uid, d);
      Replaced(s, t, m.outbox.value, t.client.value.unsynced.value, k, l, uid, d);
    }
  }

  /** The first file promises nothing, and a drain does not change what memory promises. */
  lemma FirstOrLastFile(s: Sys, c: Change, dropHeld: bool, k: int, uid: int, d: Direction)
    requires FilesReady(s, c) && (c.Init? || c.Drain?) && MemoryBacked(s, k, uid, d)
    ensures MemoryBacked(DoRename(s, c, dropHeld), k, uid, d)
  {
    var t := DoRename(s, c, dropHeld);
    assert LiveRows(t.client.value) == LiveRows(s.client.value);
    assert Unsent(t.launched, t.visible, uid, d) == Unsent(s.launched, s.visible, uid, d);
  }

  lemma LiveBytesAreCounted(s: Sys, uid: int, d: Direction)
    requires CountersOk(s) && LiveOk(s)
    ensures LiveBytes(s, uid, d) <= RamTotal(s.ram, uid, d)
  {
    if s.client.Some? {
      var live := LiveRows(s.client.value);
      CoveredSplit(s.ram, live, s.client.value.queued);
      CoveredHasNoEmptyUuid(s.ram, live);
      CoveredBytes(s.ram, live, uid, d);
    } else {
      RamTotalNonNegative(s.ram, uid, d);
    }
  }

  lemma DrainKeepsFileBacked(s: Sys, rows: seq<Row>, dropHeld: bool, k: int, uid: int, d: Direction)
    requires ReadyToChange(s, Drain(rows)) && MemoryBacked(s, k, uid, d)
    ensures FileBacked(DoRename(s, Drain(rows), dropHeld), k, uid, d)
  {
    var m, t := s.client.value, DoRename(s, Drain(rows), dropHeld);
    var live := LiveRows(m);
    CoveredSplit(s.ram, live, m.queued);
    TailFits(s.ram, rows, live, uid, d);
    BytesAppend(m.drainBase, Tail(rows, live), uid, d);
    EraseBytes(s.launched, t.client.value.unsynced.value, uid, d);
    EraseBytes(s.launched, m.outbox.value, uid, d);
  }

  lemma RenameKeepsFileBacked(s: Sys, c: Change, dropHeld: bool, k: int, l: int, uid: int, d: Direction)
    requires ReadyToChange(s, c) && MemoryBacked(s, k, uid, d) && l <= k + LetGo(s, c, uid, d)
    ensures FileBacked(DoRename(s, c, dropHeld), l, uid, d)
  {
    if c.Drain? {
      DrainKeepsFileBacked(s, c.rows, dropHeld, k, uid, d);
    } else {
      RenameKeepsMemoryBacked(s, c, dropHeld, k, l, uid, d);
      RenameKeepsLiveRows(s, c, dropHeld);
      LiveBytesAreCounted(DoRename(s, c, dropHeld), uid, d);
    }
  }

  /** A change keeps the debt, but for what it lets go. */
  lemma RenameKeepsDebt(s: Sys, c: Change, dropHeld: bool, uid: int, d: Direction)
    requires FilesReady(s, c) && RowsFit(s)
    ensures Debt(DoRename(s, c, dropHeld), uid, d) <= Debt(s, uid, d) + LetGo(s, c, uid, d)
  {
    if c.FromBuffer? || c.FromCounters? {
      NewBatchKeepsDebt(s, c, dropHeld, uid, d);
    } else if c.Init? || c.Advance? || c.Finish? {
      DurablePromises(s, uid, d);
    } else {
      SameBatchKeepsDebt(s, c, dropHeld, uid, d);
    }
  }

  lemma FormingKeepsDebt(before: Option<ReportState>, visible: Option<ReportState>, durable: Option<ReportState>,
                         launched: set<nat>, taken: seq<Row>, was: seq<Row>, lent: seq<Row>, spent: seq<Row>,
                         uid: int, d: Direction)
    requires !Unlaunched(before, launched) && Unlaunched(visible, launched) && !SamePending(visible, durable)
    ensures DebtOf(visible, durable, launched, taken + lent, lent, spent, uid, d)
         == DebtOf(before, durable, launched, taken, was, spent, uid, d)
  {
    BytesAppend(taken, lent, uid, d);
  }

  /** The batch is new: no file has it, and it was never sent. */
  lemma NewBatchIsNew(s: Sys, c: Change, dropHeld: bool)
    requires FilesReady(s, c) && (c.FromBuffer? || c.FromCounters?)
    ensures var t := DoRename(s, c, dropHeld);
            && !Unlaunched(s.visible, s.launched) && Unlaunched(t.visible, s.launched)
            && !SamePending(t.visible, t.durable) && t.taken == s.taken + t.lent
  {
    var t := DoRename(s, c, dropHeld);
    assert t.visible.value.pending.value.origin == |s.issued|;
    assert s.taken + [] == s.taken;
  }

  lemma NewBatchKeepsDebt(s: Sys, c: Change, dropHeld: bool, uid: int, d: Direction)
    requires FilesReady(s, c) && RowsFit(s) && (c.FromBuffer? || c.FromCounters?)
    ensures Debt(DoRename(s, c, dropHeld), uid, d) == Debt(s, uid, d)
  {
    var t := DoRename(s, c, dropHeld);
    NewBatchIsNew(s, c, dropHeld);
    FormingKeepsDebt(s.visible, t.visible, s.durable, s.launched, s.taken, s.lent, t.lent, s.spent, uid, d);
  }

  lemma SameBatchKeepsDebt(s: Sys, c: Change, dropHeld: bool, uid: int, d: Direction)
    requires FilesReady(s, c) && RowsFit(s) && (c.CountFailure? || c.Mark? || c.Rebase? || c.Drain?)
    ensures Debt(DoRename(s, c, dropHeld), uid, d) == Debt(s, uid, d)
  {
    if c.Drain? {
      DrainedFile(s, c.rows, dropHeld);
    } else {
      SameBatchFile(s, c, dropHeld);
    }
    SamePromises(s, DoRename(s, c, dropHeld), uid, d);
  }

  lemma SamePromises(s: Sys, t: Sys, uid: int, d: Direction)
    requires SameRowsPending(s, t)
    ensures Debt(t, uid, d) == Debt(s, uid, d)
  {
  }

  lemma RenameKeepsLedger(s: Sys, c: Change, dropHeld: bool, uid: int, d: Direction)
    requires ReadyToChange(s, c)
    ensures Ledger(DoRename(s, c, dropHeld), uid, d)
  {
    assert Ledger(s, uid, d);
    var k, l := Debt(s, uid, d), Debt(DoRename(s, c, dropHeld), uid, d);
    RenameKeepsDebt(s, c, dropHeld, uid, d);
    LetsGoNothingNegative(s, c, uid, d);
    RenameKeepsMemoryBacked(s, c, dropHeld, 0, 0, uid, d);
    RenameKeepsMemoryBacked(s, c, dropHeld, k, l, uid, d);
    RenameKeepsFileBacked(s, c, dropHeld, 0, 0, uid, d);
    RenameKeepsFileBacked(s, c, dropHeld, k, l, uid, d);
    RenameKeepsCharges(s, c, dropHeld, uid, d);
  }

  lemma LetsGoNothingNegative(s: Sys, c: Change, uid: int, d: Direction)
    requires FilesFit(s)
    ensures 0 <= LetGo(s, c, uid, d)
  {
    if s.visible.Some? && s.visible.value.pending.Some? {
      BytesNonNegative(s.visible.value.pending.value.rows, uid, d);
    }
  }

  lemma RenameKeepsCharges(s: Sys, c: Change, dropHeld: bool, uid: int, d: Direction)
    requires ReadyToChange(s, c)
    ensures var t := DoRename(s, c, dropHeld);
            ChargedTotal(t.log, uid, d) == IssuedTotal(t.issued, ChargedOrigins(t.log), uid, d)
  {
    assert Ledger(s, uid, d);
    ChargedWereLaunched(s);
    RenameKeepsIssued(s, c, dropHeld, ChargedOrigins(s.log), uid, d);
  }

  // ---- the rows of the durable buffer ----

  lemma {:induction false} PickErase(rows: seq<Row>)
    ensures Pick(EraseRows(rows)).selected == EraseRows(Pick(rows).selected)
    ensures Pick(EraseRows(rows)).rest == EraseRows(Pick(rows).rest)
    ensures Uids(Pick(EraseRows(rows)).selected) == Uids(Pick(rows).selected)
    decreases |rows|
  {
    if rows != [] {
      var init, r := rows[..|rows| - 1], rows[|rows| - 1];
      PickErase(init);
      assert EraseRows(rows)[..|rows| - 1] == EraseRows(init);
      var p := Pick(init);
      EraseExtend(p.selected, r);
      EraseExtend(p.rest, r);
      UidsExtend(p.selected, r);
      UidsExtend(EraseRows(p.selected), EraseRow(r));
    }
  }

  lemma EraseExtend(rows: seq<Row>, r: Row)
    ensures EraseRows(rows + [r]) == EraseRows(rows) + [EraseRow(r)]
  {
  }

  lemma {:induction false} AmongMembers(rows: seq<Row>, owed: multiset<Row>)
    ensures forall r :: r in Among(rows, owed) <==> r in rows && r in owed
    ensures DistinctUids(rows) ==> DistinctUids(Among(rows, owed))
    decreases |rows|
  {
    if rows != [] {
      var init, r := rows[..|rows| - 1], rows[|rows| - 1];
      AmongMembers(init, owed);
      assert rows == init + [r];
      if DistinctUids(rows) && r in owed {
        assert r.uid !in Uids(Among(init, owed));
        DistinctUidsExtend(Among(init, owed), r);
      }
    }
  }

  lemma {:induction false} AtMostOnceEach(rows: seq<Row>, r: Row)
    requires DistinctUids(rows)
    ensures multiset(rows)[r] == if r in rows then 1 else 0
    decreases |rows|
  {
    if rows != [] {
      var init, z := rows[..|rows| - 1], rows[|rows| - 1];
      AtMostOnceEach(init, r);
      assert rows == init + [z];
      assert z !in init;
    }
  }

  /** A new batch from the buffer takes of the owed rows what it can, and leaves the others behind. */
  lemma TakingIsExact(buffer: seq<Row>, durable: multiset<Row>, taken: seq<Row>)
    requires multiset(taken) <= durable <= multiset(buffer) + multiset(taken)
    ensures var p := Pick(buffer);
            var lent := Among(p.selected, durable - multiset(taken));
            && multiset(taken + lent) <= durable <= multiset(p.rest) + multiset(taken + lent)
            && multiset(lent) <= multiset(p.selected)
            && (forall r :: r in p.selected ==> r in lent || r !in durable - multiset(taken + lent))
  {
    var p := Pick(buffer);
    var lent := Among(p.selected, durable - multiset(taken));
    AmongMembers(p.selected, durable - multiset(taken));
    assert multiset(taken + lent) == multiset(taken) + multiset(lent);
    forall r
      ensures multiset(taken + lent)[r] <= durable[r] <= (multiset(p.rest) + multiset(taken + lent))[r]
      ensures multiset(lent)[r] <= multiset(p.selected)[r]
    {
      TakingCounts(buffer, durable, taken, r);
    }
  }

  lemma TakingCounts(buffer: seq<Row>, durable: multiset<Row>, taken: seq<Row>, r: Row)
    requires multiset(taken)[r] <= durable[r] <= multiset(buffer)[r] + multiset(taken)[r]
    ensures var p := Pick(buffer);
            var lent := Among(p.selected, durable - multiset(taken));
            && multiset(taken)[r] + multiset(lent)[r] <= durable[r]
            && durable[r] <= multiset(p.rest)[r] + multiset(taken)[r] + multiset(lent)[r]
            && multiset(lent)[r] <= multiset(p.selected)[r]
  {
    var p := Pick(buffer);
    var owed := durable - multiset(taken);
    PickPartitions(buffer);
    AmongMembers(p.selected, owed);
    AtMostOnceEach(Among(p.selected, owed), r);
    AtMostOnceEach(p.selected, r);
    assert multiset(buffer)[r] == multiset(p.selected)[r] + multiset(p.rest)[r];
    assert r in owed <==> multiset(taken)[r] < durable[r];
  }

  /** The file with a new batch from the buffer, as the file before it shows it. */
  lemma FormedFile(s: Sys, dropHeld: bool)
    requires FilesReady(s, FromBuffer)
    ensures var t, p := DoRename(s, FromBuffer, dropHeld), Pick(BufferOf(s.visible));
            && t.visible.Some? && t.visible.value.pending.Some? && s.visible.Some? && s.visible.value.pending.None?
            && t.visible.value.pending.value.rows == p.selected && BufferOf(t.visible) == p.rest
            && t.visible.value.pending.value.origin == |s.issued|
            && t.lent == Among(p.selected, Owed(s.durable, s.taken)) && t.taken == s.taken + t.lent
  {
    PickErase(s.client.value.outbox.value.buffered);
  }

  lemma FromBufferKeepsRows(s: Sys, dropHeld: bool)
    requires FilesReady(s, FromBuffer) && RowsFit(s)
    ensures var t := DoRename(s, FromBuffer, dropHeld);
            && RowsOk(t.visible, t.durable, t.launched, t.taken, t.lent, t.spent)
            && LentOk(t.visible, t.durable, t.taken, t.lent)
  {
    var t := DoRename(s, FromBuffer, dropHeld);
    FormedFile(s, dropHeld);
    assert !SamePending(t.visible, t.durable) && Unlaunched(t.visible, t.launched);
    NewBatchRowsOk(s.visible, s.durable, t.visible, s.launched, s.taken, s.lent, s.spent);
  }

  lemma NewBatchRowsOk(before: Option<ReportState>, durable: Option<ReportState>, visible: Option<ReportState>,
                       launched: set<nat>, taken: seq<Row>, was: seq<Row>, spent: seq<Row>)
    requires RowsOk(before, durable, launched, taken, was, spent) && before.Some? && before.value.pending.None?
    requires visible.Some? && visible.value.pending.Some?
    requires !SamePending(visible, durable) && Unlaunched(visible, launched)
    requires visible.value.pending.value.rows == Pick(BufferOf(before)).selected
    requires BufferOf(visible) == Pick(BufferOf(before)).rest
    ensures var lent := Among(Pick(BufferOf(before)).selected, Owed(durable, taken));
            && RowsOk(visible, durable, launched, taken + lent, lent, spent)
            && LentOk(visible, durable, taken + lent, lent)
  {
    var lent := Among(Pick(BufferOf(before)).selected, Owed(durable, taken));
    TakingIsExact(BufferOf(before), multiset(BufferOf(durable)), taken);
    assert multiset(taken + lent) == multiset(taken) + multiset(lent);
  }

  lemma FromCountersKeepsRows(s: Sys, dropHeld: bool)
    requires FilesReady(s, FromCounters) && RowsFit(s)
    ensures var t := DoRename(s, FromCounters, dropHeld);
            && RowsOk(t.visible, t.durable, t.launched, t.taken, t.lent, t.spent)
            && LentOk(t.visible, t.durable, t.taken, t.lent)
  {
    assert BufferOf(s.visible) == [];
    assert Owed(s.durable, s.taken) == multiset{};
  }

  lemma LeavingKeepsRows(s: Sys, c: Change, dropHeld: bool)
    requires FilesReady(s, c) && RowsFit(s) && (c.Init? || c.Advance? || c.Finish?)
    ensures var t := DoRename(s, c, dropHeld);
            && RowsOk(t.visible, t.durable, t.launched, t.taken, t.lent, t.spent)
            && LentOk(t.visible, t.durable, t.taken, t.lent)
  {
    assert BufferOf(DoRename(s, c, dropHeld).visible) == BufferOf(s.visible);
  }

  lemma SameBatchKeepsRows(s: Sys, c: Change, dropHeld: bool)
    requires FilesReady(s, c) && RowsFit(s) && (c.CountFailure? || c.Mark? || c.Rebase?)
    ensures var t := DoRename(s, c, dropHeld);
            && RowsOk(t.visible, t.durable, t.launched, t.taken, t.lent, t.spent)
            && LentOk(t.visible, t.durable, t.taken, t.lent)
  {
    SameBatchFile(s, c, dropHeld);
    SameBatchRows(s, DoRename(s, c, dropHeld));
  }

  lemma SameBatchFile(s: Sys, c: Change, dropHeld: bool)
    requires FilesReady(s, c) && (c.CountFailure? || c.Mark? || c.Rebase?)
    ensures SameRowsPending(s, DoRename(s, c, dropHeld))
    ensures BufferOf(DoRename(s, c, dropHeld).visible) == BufferOf(s.visible)
  {
  }

  /** The pending batch, but for its sequence, and what was taken from the durable buffer are the same. */
  predicate SameRowsPending(s: Sys, t: Sys) {
    && s.visible.Some? && t.visible.Some? && t.durable == s.durable && t.launched == s.launched
    && t.taken == s.taken && t.lent == s.lent && t.spent == s.spent
    && (t.visible.value.pending.Some? <==> s.visible.value.pending.Some?)
    && (s.visible.value.pending.Some? ==>
          && t.visible.value.pending.value.origin == s.visible.value.pending.value.origin
          && t.visible.value.pending.value.rows == s.visible.value.pending.value.rows)
  }

  lemma {:induction false} TailIsErased(rows: seq<Row>, pending: seq<Row>)
    ensures EraseRows(Tail(rows, pending)) == Tail(rows, pending)
    decreases |rows|
  {
    if rows != [] {
      TailIsErased(rows[..|rows| - 1], pending);
    }
  }

  /** A further drain of the same counters drains the same rows. */
  lemma DrainGrows(base: seq<Row>, live: seq<Row>, visible: Option<ReportState>, ram: Counters, rows: seq<Row>)
    requires Drained(base, live, visible, ram) && CompleteCapture(ram, rows)
    requires ValidCounters(ram) && "" !in ram && Covered(ram, live)
    ensures multiset(BufferOf(visible)) <= multiset(EraseRows(base)) + multiset(Tail(rows, live))
  {
    if multiset(BufferOf(visible)) != multiset(EraseRows(base)) {
      var before :| CompleteCapture(ram, before)
        && multiset(BufferOf(visible)) == multiset(EraseRows(base)) + multiset(Tail(before, live));
      TailIsDetermined(ram, before, rows, live);
    }
  }

  lemma BufferFromDrain(base: seq<Row>, rows: seq<Row>, live: seq<Row>)
    ensures multiset(EraseRows(base + Tail(rows, live))) == multiset(EraseRows(base)) + multiset(Tail(rows, live))
  {
    TailIsErased(rows, live);
    assert EraseRows(base + Tail(rows, live)) == EraseRows(base) + Tail(rows, live);
  }

  lemma DrainedFile(s: Sys, rows: seq<Row>, dropHeld: bool)
    requires Agrees(s) && s.client.Some? && CanChange(s, s.client.value, Drain(rows))
    requires s.lent != [] ==> s.visible.Some? && s.visible.value.pending.Some?
    ensures var t, m := DoRename(s, Drain(rows), dropHeld), s.client.value;
            && SameRowsPending(s, t) && t.ram == s.ram && t.client.Some?
            && BufferOf(t.visible) == EraseRows(m.drainBase + Tail(rows, LiveRows(m)))
            && t.client.value.drainBase == m.drainBase && LiveRows(t.client.value) == LiveRows(m)
  {
    var m, n := s.client.value, DoRename(s, Drain(rows), dropHeld).client.value;
    assert Latest(n).value.pending == m.outbox.value.pending;
  }

  lemma DrainKeepsRows(s: Sys, rows: seq<Row>, dropHeld: bool)
    requires Agrees(s) && s.client.Some? && CanChange(s, s.client.value, Drain(rows)) && RowsFit(s)
    requires ValidCounters(s.ram) && "" !in s.ram && Covered(s.ram, LiveRows(s.client.value))
    ensures var t := DoRename(s, Drain(rows), dropHeld);
            && RowsOk(t.visible, t.durable, t.launched, t.taken, t.lent, t.spent)
            && LentOk(t.visible, t.durable, t.taken, t.lent)
            && DrainOk(t.client, t.visible, t.ram)
  {
    var m, t := s.client.value, DoRename(s, Drain(rows), dropHeld);
    DrainedFile(s, rows, dropHeld);
    BufferFromDrain(m.drainBase, rows, LiveRows(m));
    DrainGrows(m.drainBase, LiveRows(m), s.visible, s.ram, rows);
    SameBatchRows(s, t);
    assert Drained(m.drainBase, LiveRows(m), t.visible, t.ram);
  }

  /** The buffer may grow. */
  lemma SameBatchRows(s: Sys, t: Sys)
    requires RowsFit(s) && SameRowsPending(s, t)
    requires multiset(BufferOf(s.visible)) <= multiset(BufferOf(t.visible))
    ensures RowsOk(t.visible, t.durable, t.launched, t.taken, t.lent, t.spent)
    ensures LentOk(t.visible, t.durable, t.taken, t.lent)
  {
    assert SamePending(t.visible, t.durable) <==> SamePending(s.visible, s.durable);
    assert Unlaunched(t.visible, t.launched) <==> Unlaunched(s.visible, s.launched);
  }

  lemma RenameKeepsRows(s: Sys, c: Change, dropHeld: bool)
    requires ReadyToChange(s, c)
    ensures var t := DoRename(s, c, dropHeld);
            && RowsOk(t.visible, t.durable, t.launched, t.taken, t.lent, t.spent)
            && LentOk(t.visible, t.durable, t.taken, t.lent)
            && DrainOk(t.client, t.visible, t.ram)
  {
    if c.FromBuffer? {
      FromBufferKeepsRows(s, dropHeld);
    } else if c.Drain? {
      CoveredSplit(s.ram, LiveRows(s.client.value), s.client.value.queued);
      DrainKeepsRows(s, c.rows, dropHeld);
    } else if c.FromCounters? {
      FromCountersKeepsRows(s, dropHeld);
    } else if c.Init? || c.Advance? || c.Finish? {
      LeavingKeepsRows(s, c, dropHeld);
    } else {
      SameBatchKeepsRows(s, c, dropHeld);
    }
  }

  lemma ChargedWereLaunched(s: Sys)
    requires Inv(s)
    ensures ChargedOrigins(s.log) <= s.launched
    ensures forall i :: i in ChargedOrigins(s.log) ==> i < |s.issued|
  {
  }

  lemma RenameKeeps(s: Sys, c: Change, dropHeld: bool)
    requires Inv(s) && Enabled(s, Rename(c, dropHeld))
    ensures Inv(Step(s, Rename(c, dropHeld)))
  {
    RenameKeepsCells(s, c, dropHeld);
    RenameKeepsFilesApart(s, c, dropHeld);
    RenameKeepsRows(s, c, dropHeld);
    RenameKeepsLiveRows(s, c, dropHeld);
    forall uid, d
      ensures Ledger(DoRename(s, c, dropHeld), uid, d)
    {
      RenameKeepsLedger(s, c, dropHeld, uid, d);
    }
  }

  // ---- all actions ----

  /** Actions of the panel, the network, the disk and the process as a whole. */
  predicate OfSurroundings(a: Action) {
    a.Log? || a.Deliver? || a.Foreign? || a.Exit? || a.PowerLoss? || a.WriteBack? || a.Boot? || a.Load?
  }

  lemma SurroundingsKeep(s: Sys, a: Action)
    requires Inv(s) && Enabled(s, a) && OfSurroundings(a)
    ensures Inv(Step(s, a))
  {
    match a
    case Log(uuid, uid, up, down) => LogKeeps(s, uuid, uid, up, down);
    case Deliver(post) => DeliverKeeps(s, post);
    case Foreign(other) => ForeignKeeps(s, other);
    case Exit => ExitKeeps(s);
    case PowerLoss(keep) => PowerLossKeeps(s, keep);
    case WriteBack => WriteBackKeeps(s);
    case Boot => BootKeeps(s);
    case Load => LoadKeeps(s);
  }

  lemma ClientKeeps(s: Sys, a: Action)
    requires Inv(s) && Enabled(s, a) && !OfSurroundings(a)
    ensures Inv(Step(s, a))
  {
    match a
    case Rename(c, dropHeld) => RenameKeeps(s, c, dropHeld);
    case SyncDirectory => SyncKeeps(s);
    case TakeBuffer => TakeBufferKeeps(s);
    case Capture(rows) => CaptureKeeps(s, rows);
    case EndRound => EndRoundKeeps(s);
    case Send => SendKeeps(s);
    case Commit => CommitKeeps(s);
    case StartDrain => StartDrainKeeps(s);
    case DrainDone => DrainDoneKeeps(s);
  }

  /** Every action keeps the invariant. */
  lemma StepKeeps(s: Sys, a: Action)
    requires Inv(s) && Enabled(s, a)
    ensures Inv(Step(s, a))
  {
    if OfSurroundings(a) {
      SurroundingsKeep(s, a);
    } else {
      ClientKeeps(s, a);
    }
  }

  lemma InitialIsInv(s: Sys)
    requires Initial(s)
    ensures Inv(s)
  {
    forall uid, d
      ensures Ledger(s, uid, d)
    {
      NothingCharged(s.log, uid, d);
    }
  }

  lemma {:induction false} NothingCharged(log: seq<Entry>, uid: int, d: Direction)
    requires forall i :: 0 <= i < |log| ==> !log[i].mine
    ensures ChargedTotal(log, uid, d) == 0
    decreases |log|
  {
    if log != [] {
      NothingCharged(log[..|log| - 1], uid, d);
    }
  }
}
