/** What the outbox protocol guarantees over whole runs: any runs, with processes killed at any
    moment and power losses that take back renames. */
module OutboxSafety {
  import opened Options
  import opened TrafficTypes
  import opened Batching
  import opened Totals
  import opened DrainTotals
  import opened Panel
  import opened OutboxMachine
  import opened OutboxInvariant
  import opened OutboxSteps

  lemma {:induction false} RunsKeepInv(s: Sys, acts: seq<Action>)
    requires Inv(s) && Exec(s, acts).Some?
    ensures Inv(Exec(s, acts).value)
    decreases |acts|
  {
    if acts != [] {
      RunsKeepInv(s, acts[..|acts| - 1]);
      StepKeeps(Exec(s, acts[..|acts| - 1]).value, acts[|acts| - 1]);
    }
  }

  lemma {:induction false} ExecPrefix(s: Sys, acts: seq<Action>, k: nat)
    requires k <= |acts| && Exec(s, acts).Some?
    ensures Exec(s, acts[..k]).Some?
    ensures k < |acts| ==> Enabled(Exec(s, acts[..k]).value, acts[k])
    decreases |acts|
  {
    if k < |acts| {
      var init := acts[..|acts| - 1];
      if k < |acts| - 1 {
        ExecPrefix(s, init, k);
        assert init[..k] == acts[..k];
      }
    } else {
      assert acts[..k] == acts;
    }
  }

  // ---- at most once ----

  /** Bytes of the rows that were sent and then put back into the buffer by a power loss. */
  function RepeatedTotal(s: Sys, uid: int, d: Direction): int { Bytes(s.repeated, uid, d) }

  lemma ChargedIsBacked(s: Sys, uid: int, d: Direction)
    requires Inv(s)
    ensures ChargedTotal(s.log, uid, d) <= RamTotal(s.counted, uid, d) + RepeatedTotal(s, uid, d)
  {
    assert Ledger(s, uid, d);
    ChargedWereLaunched(s);
    IssuedTotalMonotone(s.issued, ChargedOrigins(s.log), s.launched, uid, d);
    if s.visible.Some? {
      BytesNonNegative(s.visible.value.buffered, uid, d);
      if s.visible.value.pending.Some? {
        BytesNonNegative(s.visible.value.pending.value.rows, uid, d);
      }
    }
  }

  /** At-most-once charging. After every run of a new node, whatever was lost, delayed, repeated,
      crashed, collided, rebased or isolated: no batch was charged under two sequences, and no user
      was charged more bytes, in either direction, than the node ever counted, plus the rows that
      a power loss put back into the buffer after they had been sent. */
  lemma AtMostOnce(s: Sys, acts: seq<Action>)
    requires Initial(s) && Exec(s, acts).Some?
    ensures var log := Exec(s, acts).value.log;
            forall i, j :: 0 <= i < j < |log| && log[i].mine && log[j].mine ==>
              log[i].batch.origin != log[j].batch.origin
    ensures var t := Exec(s, acts).value;
            forall uid, d :: ChargedTotal(t.log, uid, d) <= RamTotal(t.counted, uid, d) + RepeatedTotal(t, uid, d)
  {
    InitialIsInv(s);
    RunsKeepInv(s, acts);
    var t := Exec(s, acts).value;
    forall i, j | 0 <= i < j < |t.log| && t.log[i].mine && t.log[j].mine
      ensures t.log[i].batch.origin != t.log[j].batch.origin
    {
      var p, q := t.log[i].batch, t.log[j].batch;
      assert p in t.posts && q in t.posts;
      assert !TakenAt(t.log, EraseRows(p.rows), p.sequence);
    }
    forall uid, d
      ensures ChargedTotal(t.log, uid, d) <= RamTotal(t.counted, uid, d) + RepeatedTotal(t, uid, d)
    {
      ChargedIsBacked(t, uid, d);
    }
  }

  /** What `repeated` records: when a power loss takes back renames, exactly the spent rows are added;
      each of them was sent, and all of them are in the buffer of the file that comes back. */
  lemma SpentRowsAreBack(start: Sys, run: seq<Action>)
    requires Initial(start) && Exec(start, run).Some?
    ensures var s, t := Exec(start, run).value, DoPowerLoss(Exec(start, run).value, false);
            && t.repeated == s.repeated + s.spent
            && (forall r :: r in s.spent ==> exists p :: p in s.posts && r in p.rows)
            && multiset(s.spent) <= multiset(BufferOf(t.visible))
  {
    InitialIsInv(start);
    RunsKeepInv(start, run);
  }

  // ---- adopting a file that is not durable ----

  /** What loadReportState would have to know of the file it adopts: a batch in it that can be sent
      is pending in the durable file too. */
  predicate PendingIsDurable(s: Sys) {
    s.visible.Some? && s.visible.value.pending.Some? && s.visible.value.resolution.None? ==>
      s.durable.Some? && s.durable.value.pending == s.visible.value.pending
  }

  /** The running process works from a batch that its Load did not find durable, and nothing has been
      synchronised since. */
  predicate Borrowed(s: Sys, acts: seq<Action>)
    requires Exec(s, acts).Some?
  {
    acts != [] &&
    var before, a := acts[..|acts| - 1], acts[|acts| - 1];
    match a
    case Load => !PendingIsDurable(Exec(s, before).value)
    case SyncDirectory => false
    case WriteBack => false
    case PowerLoss(_) => false
    case Exit => false
    case _ => Borrowed(s, before)
  }

  /** Some process has borrowed a batch since the directory was last synchronised. */
  predicate Adopted(s: Sys, acts: seq<Action>)
    requires Exec(s, acts).Some?
  {
    acts != [] &&
    var before, a := acts[..|acts| - 1], acts[|acts| - 1];
    match a
    case Load => Adopted(s, before) || !PendingIsDurable(Exec(s, before).value)
    case SyncDirectory => false
    case WriteBack => false
    case PowerLoss(_) => false
    case _ => Adopted(s, before)
  }

  /** The durable file carries the batch that the client is about to send. */
  predicate Carries(t: Sys) {
    && t.visible.Some? && t.durable.Some? && t.durable.value.pending == t.visible.value.pending
    && t.durable.value.resolution.None?
  }

  /** A process that is ready to send has its batch on the disk exactly if it has not borrowed it. */
  predicate BorrowingTells(t: Sys, borrowed: bool) {
    && (t.client.Some? && HasPending(t.client.value) && t.client.value.outbox.value.resolution.None? ==>
          t.visible.Some? && (borrowed <==> !(t.durable.Some? && t.durable.value.pending == t.visible.value.pending)))
    && (borrowed ==> t.client.Some? && t.client.value.outbox.Some?)
  }

  lemma BorrowingStep(t: Sys, a: Action, before: bool, after: bool)
    requires FilesFit(t) && Enabled(t, a) && BorrowingTells(t, before)
    requires after == match a
                      case Load => !PendingIsDurable(t)
                      case SyncDirectory => false
                      case WriteBack => false
                      case PowerLoss(_) => false
                      case Exit => false
                      case _ => before
    ensures BorrowingTells(Step(t, a), after)
  {
    if a.Load? {
      LoadTells(t);
    }
  }

  lemma {:induction false} BorrowingIsTold(s: Sys, acts: seq<Action>)
    requires Initial(s) && Exec(s, acts).Some?
    ensures Inv(Exec(s, acts).value) && BorrowingTells(Exec(s, acts).value, Borrowed(s, acts))
    ensures Borrowed(s, acts) ==> Adopted(s, acts)
    decreases |acts|
  {
    InitialIsInv(s);
    RunsKeepInv(s, acts);
    if acts != [] {
      var init, a := acts[..|acts| - 1], acts[|acts| - 1];
      BorrowingIsTold(s, init);
      BorrowingStep(Exec(s, init).value, a, Borrowed(s, init), Borrowed(s, acts));
    }
  }

  // ---- write-ahead ----

  lemma SendIsCarriedIff(t: Sys, borrowed: bool)
    requires FilesFit(t) && Enabled(t, Send) && BorrowingTells(t, borrowed)
    ensures Carries(t) <==> !borrowed
    ensures t.visible.value.pending.Some? && DoSend(t).posts == t.posts + {t.visible.value.pending.value}
  {
    SentIsVisible(t);
    assert MarkedBy(t.durable) <= t.marked;
  }

  /** What a Send sends is pending in the visible file, without a marker. */
  lemma SentIsVisible(t: Sys)
    requires FilesFit(t) && Enabled(t, Send)
    ensures t.visible.Some? && t.visible.value.pending.Some? && t.visible.value.resolution.None?
    ensures t.visible.value.pending.value == EraseBatch(t.client.value.outbox.value.pending.value)
    ensures t.visible.value.pending.value.origin !in t.marked
  {
  }

  /** Write-ahead, exactly. In every run, a POST carries a batch that is pending, without a marker, in
      the durable file if and only if the process has not borrowed it: its Load found it durable, or
      the directory was synchronised since. */
  lemma WriteAhead(s: Sys, acts: seq<Action>, k: nat)
    requires Initial(s) && Exec(s, acts).Some? && k < |acts| && acts[k].Send?
    ensures Exec(s, acts[..k]).Some? && Exec(s, acts[..k + 1]).Some?
    ensures var before, after := Exec(s, acts[..k]).value, Exec(s, acts[..k + 1]).value;
            && before.visible.Some? && before.visible.value.pending.Some?
            && after.posts == before.posts + {before.visible.value.pending.value}
            && (!Borrowed(s, acts[..k]) <==>
                  before.durable.Some? && before.durable.value.pending == before.visible.value.pending
                  && before.durable.value.resolution.None?)
  {
    ExecPrefix(s, acts, k);
    ExecPrefix(s, acts, k + 1);
    assert acts[..k + 1][..k] == acts[..k];
    BorrowingIsTold(s, acts[..k]);
    SendIsCarriedIff(Exec(s, acts[..k]).value, Borrowed(s, acts[..k]));
  }

  /** The actions of one process after its Load. */
  predicate SameProcess(acts: seq<Action>) { forall a :: a in acts ==> !a.Exit? && !a.PowerLoss? && !a.Load? }

  lemma {:induction false} NotBorrowedAfter(t: Sys, acts: seq<Action>)
    requires Inv(t) && BorrowingTells(t, false) && SameProcess(acts) && Exec(t, acts).Some?
    ensures Inv(Exec(t, acts).value) && BorrowingTells(Exec(t, acts).value, false)
    decreases |acts|
  {
    RunsKeepInv(t, acts);
    if acts != [] {
      var init, a := acts[..|acts| - 1], acts[|acts| - 1];
      assert a in acts;
      NotBorrowedAfter(t, init);
      BorrowingStep(Exec(t, init).value, a, false, false);
    }
  }

  /** The exact condition at the branch that fails. Take any reachable moment at which a process is
      about to adopt the file. Whatever it goes on to do, it sends only what the durable file carries,
      if and only if the pending batch it finds is durable. */
  lemma AdoptionIsSafeIff(start: Sys, run: seq<Action>)
    requires Initial(start) && Exec(start, run).Some? && Enabled(Exec(start, run).value, Load)
    ensures var s := Exec(start, run).value;
            (forall acts ::
               SameProcess(acts) && Exec(DoLoad(s), acts).Some? && Enabled(Exec(DoLoad(s), acts).value, Send) ==>
               Carries(Exec(DoLoad(s), acts).value))
            <==> PendingIsDurable(s)
  {
    InitialIsInv(start);
    RunsKeepInv(start, run);
    var s := Exec(start, run).value;
    LoadTells(s);
    if PendingIsDurable(s) {
      StepKeeps(s, Load);
      CarriesAllAlong(DoLoad(s));
    } else {
      CarriesNotAtOnce(DoLoad(s));
    }
    assert CarriesAlways(DoLoad(s)) <==> PendingIsDurable(s);
  }

  /** Whatever the process goes on to do from here, it sends only what the durable file carries. */
  ghost predicate CarriesAlways(t: Sys) {
    forall acts :: SameProcess(acts) && Exec(t, acts).Some? && Enabled(Exec(t, acts).value, Send) ==>
      Carries(Exec(t, acts).value)
  }

  lemma CarriesAllAlong(t: Sys)
    requires Inv(t) && BorrowingTells(t, false)
    ensures CarriesAlways(t)
  {
    forall acts | SameProcess(acts) && Exec(t, acts).Some? && Enabled(Exec(t, acts).value, Send)
      ensures Carries(Exec(t, acts).value)
    {
      NotBorrowedAfter(t, acts);
      SendIsCarriedIff(Exec(t, acts).value, false);
    }
  }

  lemma CarriesNotAtOnce(t: Sys)
    requires BorrowingTells(t, true) && Enabled(t, Send)
    ensures !CarriesAlways(t)
  {
    assert Exec(t, []) == Some(t) && SameProcess([]);
    assert !Carries(t);
  }

  lemma LoadTells(s: Sys)
    requires FilesFit(s) && Enabled(s, Load)
    ensures BorrowingTells(DoLoad(s), !PendingIsDurable(s))
    ensures !PendingIsDurable(s) ==> Enabled(DoLoad(s), Send)
  {
  }

  // ---- when nothing is charged twice ----

  /** The file offers a batch to send with rows that the durable file still has in its buffer. */
  predicate OffersLentRows(s: Sys) {
    s.visible.Some? && s.visible.value.pending.Some? && s.visible.value.resolution.None? && s.lent != []
  }

  /** Nothing is spent, and the client is not about to spend anything. */
  predicate SpendsNothing(t: Sys, repeated: seq<Row>) {
    && t.spent == [] && t.repeated == repeated
    && (t.client.Some? && HasPending(t.client.value) && t.client.value.outbox.value.resolution.None? ==> t.lent == [])
  }

  lemma SpendsNothingStep(t: Sys, a: Action, repeated: seq<Row>)
    requires Enabled(t, a) && SpendsNothing(t, repeated) && !a.Exit? && !a.PowerLoss? && !a.Load?
    ensures SpendsNothing(Step(t, a), repeated)
  {
  }

  lemma {:induction false} NothingIsSpent(t: Sys, acts: seq<Action>, repeated: seq<Row>)
    requires SpendsNothing(t, repeated) && SameProcess(acts) && Exec(t, acts).Some?
    ensures SpendsNothing(Exec(t, acts).value, repeated)
    decreases |acts|
  {
    if acts != [] {
      assert acts[|acts| - 1] in acts;
      NothingIsSpent(t, acts[..|acts| - 1], repeated);
      SpendsNothingStep(Exec(t, acts[..|acts| - 1]).value, acts[|acts| - 1], repeated);
    }
  }

  /** A sent row of the pending batch is in the durable buffer. */
  predicate SharesRows(x: ReportState, y: ReportState)
    requires x.pending.Some?
  {
    exists r :: r in x.pending.value.rows && r in y.buffered
  }

  /** What the two files show of it: lent rows are rows of the pending batch that the durable file has
      in its buffer; and if no earlier batch took rows from there, there are some exactly if the two
      files share a row and the batch is not durable itself. */
  lemma LentRowsShow(s: Sys)
    requires RowsFit(s) && s.visible.Some? && s.visible.value.pending.Some? && s.durable.Some?
    ensures forall r :: r in s.lent ==> r in s.visible.value.pending.value.rows && r in s.durable.value.buffered
    ensures s.taken == s.lent ==>
              (s.lent != [] <==> !SamePending(s.visible, s.durable) && SharesRows(s.visible.value, s.durable.value))
  {
    if s.lent != [] {
      forall r | r in s.lent
        ensures r in s.visible.value.pending.value.rows
      {
        assert r in multiset(s.lent);
        assert r in multiset(s.visible.value.pending.value.rows);
      }
      LentRowsAreOwed(s);
      assert s.lent[0] in s.lent;
    } else if s.taken == [] && !SamePending(s.visible, s.durable) {
      assert Owed(s.durable, s.taken) == multiset(s.durable.value.buffered);
      assert forall r :: r in s.durable.value.buffered ==> r in multiset(s.durable.value.buffered);
    }
  }

  lemma LentRowsAreOwed(s: Sys)
    requires RowsFit(s) && s.durable.Some?
    ensures forall r :: r in s.lent ==> r in s.durable.value.buffered
  {
    forall r | r in s.lent
      ensures r in s.durable.value.buffered
    {
      assert r in multiset(s.lent);
      assert r in multiset(s.taken);
      assert r in multiset(BufferOf(s.durable));
    }
  }

  /** Whatever a process goes on to do from here, a power loss then puts no sent row back. */
  ghost predicate NeverRepeats(t: Sys, repeated: seq<Row>) {
    forall acts :: SameProcess(acts) && Exec(t, acts).Some? ==>
      DoPowerLoss(Exec(t, acts).value, false).repeated == repeated
  }

  lemma SpendsNothingNeverRepeats(t: Sys)
    requires SpendsNothing(t, t.repeated)
    ensures NeverRepeats(t, t.repeated)
  {
    forall acts | SameProcess(acts) && Exec(t, acts).Some?
      ensures DoPowerLoss(Exec(t, acts).value, false).repeated == t.repeated
    {
      NothingIsSpent(t, acts, t.repeated);
      assert t.repeated + [] == t.repeated;
    }
  }

  /** One POST of an offered batch is enough. */
  lemma SpentRowsRepeat(t: Sys)
    requires t.spent != []
             || (Enabled(t, Send) && t.lent != [] && t.client.value.outbox.value.pending.value.origin !in t.launched)
    ensures !NeverRepeats(t, t.repeated)
  {
    if t.spent != [] {
      assert Exec(t, []) == Some(t) && SameProcess([]);
      assert |DoPowerLoss(t, false).repeated| == |t.repeated| + |t.spent|;
    } else {
      assert [Send][..0] == [] && SameProcess([Send]);
      assert Exec(t, [Send]) == Some(DoSend(t));
      assert |DoPowerLoss(DoSend(t), false).repeated| == |t.repeated| + |t.spent + t.lent|;
    }
  }

  /** Lent rows that were sent are spent, and a batch with lent rows is not durable. */
  lemma LentMeansUnsent(s: Sys)
    requires RowsFit(s) && s.lent != []
    ensures s.visible.Some? && s.visible.value.pending.Some? && !SamePending(s.visible, s.durable)
    ensures s.spent == [] ==> s.visible.value.pending.value.origin !in s.launched
  {
  }

  lemma LoadRepeatsIff(s: Sys)
    requires FilesFit(s) && RowsFit(s) && Enabled(s, Load)
    ensures NeverRepeats(DoLoad(s), s.repeated) <==> s.spent == [] && !OffersLentRows(s)
    ensures PendingIsDurable(s) ==> !OffersLentRows(s)
  {
    if s.lent != [] {
      LentMeansUnsent(s);
    }
    if s.spent == [] && !OffersLentRows(s) {
      LoadSpendsNothing(s);
      SpendsNothingNeverRepeats(DoLoad(s));
    } else {
      if s.spent == [] {
        LoadOffers(s);
      }
      SpentRowsRepeat(DoLoad(s));
    }
  }

  lemma LoadSpendsNothing(s: Sys)
    requires Enabled(s, Load) && s.spent == [] && !OffersLentRows(s)
    ensures SpendsNothing(DoLoad(s), s.repeated)
  {
  }

  lemma LoadOffers(s: Sys)
    requires Enabled(s, Load) && OffersLentRows(s) && FlagsOk(s.client.value)
    ensures Enabled(DoLoad(s), Send)
    ensures DoLoad(s).client.value.outbox == s.visible && DoLoad(s).lent == s.lent && DoLoad(s).launched == s.launched
  {
  }

  /** The exact condition for a repetition, at the same branch. Take any reachable moment at which a
      process is about to adopt the file. Whatever it goes on to do, a power loss then puts no sent row
      back into the buffer, if and only if nothing is spent and the file does not offer lent rows. */
  lemma RepetitionIsExcludedIff(start: Sys, run: seq<Action>)
    requires Initial(start) && Exec(start, run).Some? && Enabled(Exec(start, run).value, Load)
    ensures var s := Exec(start, run).value;
            (forall acts :: SameProcess(acts) && Exec(DoLoad(s), acts).Some? ==>
               DoPowerLoss(Exec(DoLoad(s), acts).value, false).repeated == s.repeated)
            <==> s.spent == [] && !OffersLentRows(s)
    ensures PendingIsDurable(Exec(start, run).value) ==> !OffersLentRows(Exec(start, run).value)
  {
    InitialIsInv(start);
    RunsKeepInv(start, run);
    var s := Exec(start, run).value;
    LoadRepeatsIff(s);
    assert NeverRepeats(DoLoad(s), s.repeated) <==> s.spent == [] && !OffersLentRows(s);
  }

  /** No power loss takes back a rename after a process has borrowed from it. */
  predicate Careful(s: Sys, acts: seq<Action>)
    requires Exec(s, acts).Some?
  {
    acts == [] ||
    var before, a := acts[..|acts| - 1], acts[|acts| - 1];
    Careful(s, before) && (a == PowerLoss(false) ==> !Adopted(s, before))
  }

  lemma SpendingStep(t: Sys, a: Action)
    requires Enabled(t, a) && Step(t, a).spent != []
    ensures t.spent != [] || (a.Send? && t.lent != [])
    ensures !a.SyncDirectory? && !a.WriteBack? && !a.PowerLoss?
  {
  }

  /** Only a borrowed batch can be spent. */
  lemma {:induction false} SpentMeansAdopted(s: Sys, acts: seq<Action>)
    requires Initial(s) && Exec(s, acts).Some?
    ensures Exec(s, acts).value.spent != [] ==> Adopted(s, acts)
    decreases |acts|
  {
    if acts != [] {
      var init, a := acts[..|acts| - 1], acts[|acts| - 1];
      var t := Exec(s, init).value;
      SpentMeansAdopted(s, init);
      if Exec(s, acts).value.spent != [] {
        SpendingStep(t, a);
      }
      if a.Send? && t.lent != [] {
        BorrowingIsTold(s, init);
        LentMeansUnsent(t);
        SendIsCarriedIff(t, Borrowed(s, init));
      }
    }
  }

  lemma {:induction false} CarefulNeverRepeats(s: Sys, acts: seq<Action>)
    requires Initial(s) && Exec(s, acts).Some? && Careful(s, acts)
    ensures Exec(s, acts).value.repeated == []
    decreases |acts|
  {
    if acts != [] {
      CarefulNeverRepeats(s, acts[..|acts| - 1]);
      if acts[|acts| - 1].PowerLoss? {
        SpentMeansAdopted(s, acts[..|acts| - 1]);
      } else {
        RepeatingStep(Exec(s, acts[..|acts| - 1]).value, acts[|acts| - 1]);
      }
    }
  }

  lemma RepeatingStep(t: Sys, a: Action)
    requires Enabled(t, a) && !a.PowerLoss?
    ensures Step(t, a).repeated == t.repeated
  {
  }

  /** After every careful run nobody was charged more than was counted. */
  lemma CarefulNeverOvercharges(s: Sys, acts: seq<Action>, uid: int, d: Direction)
    requires Initial(s) && Exec(s, acts).Some? && Careful(s, acts)
    ensures ChargedTotal(Exec(s, acts).value.log, uid, d) <= RamTotal(Exec(s, acts).value.counted, uid, d)
  {
    AtMostOnce(s, acts);
    CarefulNeverRepeats(s, acts);
  }

  /** Every file that a process of the run adopts has its pending batch on the disk. */
  predicate LoadsFindDurable(s: Sys, acts: seq<Action>)
    requires Exec(s, acts).Some?
  {
    acts == [] ||
    var before, a := acts[..|acts| - 1], acts[|acts| - 1];
    LoadsFindDurable(s, before) && (a.Load? ==> PendingIsDurable(Exec(s, before).value))
  }

  /** A process only goes away, short of a power loss, when its last rename is durable. */
  predicate ExitsAreSettled(s: Sys, acts: seq<Action>)
    requires Exec(s, acts).Some?
  {
    acts == [] ||
    var before, a := acts[..|acts| - 1], acts[|acts| - 1];
    ExitsAreSettled(s, before) && (a.Exit? ==> Settled(Exec(s, before).value))
  }

  /** Runs in which processes are killed at any moment but no rename is taken back are careful. */
  lemma {:induction false} KeptRenamesAreCareful(s: Sys, acts: seq<Action>)
    requires Exec(s, acts).Some? && PowerLoss(false) !in acts
    ensures Careful(s, acts)
    decreases |acts|
  {
    if acts != [] {
      KeptRenamesAreCareful(s, acts[..|acts| - 1]);
    }
  }

  /** Runs whose processes adopt durable batches only are careful, and write ahead, whatever exits and
      power losses they have. */
  lemma {:induction false} DurableLoadsAreCareful(s: Sys, acts: seq<Action>)
    requires Exec(s, acts).Some? && LoadsFindDurable(s, acts)
    ensures Careful(s, acts) && !Adopted(s, acts) && !Borrowed(s, acts)
    decreases |acts|
  {
    if acts != [] {
      DurableLoadsAreCareful(s, acts[..|acts| - 1]);
    }
  }

  /** Between processes the file is durable if exits are settled. */
  predicate SettledBetween(t: Sys) { t.client.None? || Latest(t.client.value).None? ==> Settled(t) }

  lemma SettledBetweenStep(t: Sys, a: Action)
    requires Enabled(t, a) && SettledBetween(t) && (a.Exit? ==> Settled(t))
    ensures SettledBetween(Step(t, a)) && (a.Load? ==> PendingIsDurable(t))
  {
  }

  lemma {:induction false} SettledExitsFindDurable(s: Sys, acts: seq<Action>)
    requires Initial(s) && Exec(s, acts).Some? && ExitsAreSettled(s, acts)
    ensures LoadsFindDurable(s, acts) && SettledBetween(Exec(s, acts).value)
    decreases |acts|
  {
    if acts != [] {
      SettledExitsFindDurable(s, acts[..|acts| - 1]);
      SettledBetweenStep(Exec(s, acts[..|acts| - 1]).value, acts[|acts| - 1]);
    }
  }

  // ---- markers ----

  lemma MarkersStay(t: Sys, a: Action)
    requires Enabled(t, a)
    ensures t.marked <= Step(t, a).marked
  {
  }

  lemma {:induction false} MarkersAreKept(s: Sys, acts: seq<Action>)
    requires Exec(s, acts).Some?
    ensures s.marked <= Exec(s, acts).value.marked
    decreases |acts|
  {
    if acts != [] {
      MarkersAreKept(s, acts[..|acts| - 1]);
      MarkersStay(Exec(s, acts[..|acts| - 1]).value, acts[|acts| - 1]);
    }
  }

  /** Once a resolution marker is durable, its batch is never sent again, whatever happens next:
      take a run, its durable marker after `early`, and a Send later on. */
  lemma MarkedIsNeverSent(s: Sys, early: seq<Action>, acts: seq<Action>, k: nat)
    requires Initial(s) && Exec(s, early).Some? && Exec(Exec(s, early).value, acts).Some?
    requires k < |acts| && acts[k].Send?
    requires var x := Exec(s, early).value.durable;
             x.Some? && x.value.pending.Some? && x.value.resolution.Some?
    ensures Exec(Exec(s, early).value, acts[..k]).Some?
    ensures var before := Exec(Exec(s, early).value, acts[..k]).value;
            && before.client.Some? && HasPending(before.client.value)
            && before.client.value.outbox.value.pending.value.origin
               != Exec(s, early).value.durable.value.pending.value.origin
  {
    var t := Exec(s, early).value;
    InitialIsInv(s);
    RunsKeepInv(s, early);
    ExecPrefix(t, acts, k);
    RunsKeepInv(t, acts[..k]);
    MarkersAreKept(t, acts[..k]);
    OutboxIsHealthy(Exec(t, acts[..k]).value);
  }

  // ---- restart and retry never refuse the program's own file ----

  /** A restarted client always accepts the file it finds. */
  lemma RestartAcceptsOwnFile(s: Sys, acts: seq<Action>)
    requires Initial(s) && Exec(s, acts).Some?
    ensures var t := Exec(s, acts).value;
            && (t.visible.Some? ==> Loadable(t.visible.value))
            && (t.durable.Some? ==> Loadable(t.durable.value))
            && (t.client.Some? && t.client.value.outbox.None? && t.client.value.unsynced.None? && t.visible.Some? ==>
                  Enabled(t, Load))
  {
    InitialIsInv(s);
    RunsKeepInv(s, acts);
  }

  /** With one controller, the file is the one memory expects: a retry after a failed directory
      sync finds `unsynced`, any other round finds `outbox`. */
  lemma DiskAndMemoryAgree(s: Sys, acts: seq<Action>)
    requires Initial(s) && Exec(s, acts).Some?
    ensures var t := Exec(s, acts).value;
            t.client.Some? ==>
              && (t.client.value.unsynced.Some? ==> t.visible == Some(Erase(t.client.value.unsynced.value)))
              && (t.client.value.unsynced.None? && t.client.value.outbox.Some? ==>
                    t.visible == Some(Erase(t.client.value.outbox.value)))
  {
    InitialIsInv(s);
    RunsKeepInv(s, acts);
  }

  // ---- the commit is a plain subtraction ----

  /** Committing `row`, one of `rows`, takes exactly its bytes out of exactly its counter. */
  predicate TakesExactly(ram: Counters, after: Counters, rows: seq<Row>, row: Row) {
    && row.uuid in ram && row.up <= ram[row.uuid].up && row.down <= ram[row.uuid].down && row.uuid in after
    && after[row.uuid] == ram[row.uuid].(up := ram[row.uuid].up - row.up, down := ram[row.uuid].down - row.down)
    && forall u :: u in ram && u !in Uuids(rows) ==> u in after && after[u] == ram[u]
  }

  /** Whenever pending rows are committed, each of them is at most its counter, so the saturating
      subtraction removes exactly the reported bytes from exactly the reported counters. */
  lemma ClampNeverActs(start: Sys, acts: seq<Action>, r: Row)
    requires Initial(start) && Exec(start, acts).Some? && Enabled(Exec(start, acts).value, Commit)
    requires r in Exec(start, acts).value.client.value.outbox.value.pending.value.rows
    ensures var s := Exec(start, acts).value;
            TakesExactly(s.ram, Step(s, Commit).ram, s.client.value.outbox.value.pending.value.rows, r)
  {
    InitialIsInv(start);
    RunsKeepInv(start, acts);
    CommitIsExact(Exec(start, acts).value, r);
  }

  lemma CommitIsExact(s: Sys, r: Row)
    requires CountersOk(s) && LiveOk(s) && Enabled(s, Commit) && r in s.client.value.outbox.value.pending.value.rows
    ensures TakesExactly(s.ram, Step(s, Commit).ram, s.client.value.outbox.value.pending.value.rows, r)
  {
    var m := s.client.value;
    var rows := m.outbox.value.pending.value.rows;
    assert LiveRows(m) == rows;
    CoveredSplit(s.ram, rows, m.queued);
    SubtractKeepsTheRest(s.ram, rows);
    SubtractIsExact(s.ram, rows, r);
  }

  /** The error "inconsistent final counters" cannot occur: a capture of the counters is always
      consistent with the pending batch. */
  lemma FinalCountersAreConsistent(start: Sys, acts: seq<Action>, rows: seq<Row>)
    requires Initial(start) && Exec(start, acts).Some? && Exec(start, acts).value.client.Some?
    requires CompleteCapture(Exec(start, acts).value.ram, rows)
    ensures ConsistentTail(rows, LiveRows(Exec(start, acts).value.client.value))
  {
    InitialIsInv(start);
    RunsKeepInv(start, acts);
    var s := Exec(start, acts).value;
    var m := s.client.value;
    CoveredSplit(s.ram, LiveRows(m), m.queued);
    CompleteCaptureIsConsistent(s.ram, rows, LiveRows(m));
  }
}
