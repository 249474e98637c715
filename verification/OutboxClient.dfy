/** The panel client's traffic outbox (api/v2board/traffic.go, traffic_isolation.go,
    traffic_conflict.go). Each method performs only actions of the outbox machine that are possible
    in the state it meets, so everything proved about runs holds of this control flow. */
module OutboxClient {
  import opened Options
  import opened TrafficTypes
  import opened Batching
  import opened Fairness
  import opened ReportOrder
  import opened Totals
  import opened DrainTotals
  import opened Panel
  import opened AuditHolds
  import opened OutboxMachine
  import opened OutboxInvariant
  import opened OutboxSteps
  import opened OutboxWorld

  /** What there had been when a batch was formed. */
  datatype Formed = Formed(faults: nat, unconfirmed: nat)

  /** How an attempt to get the pending batch acknowledged ended. */
  datatype Outcome = Done | Unconfirmed(conflict: Option<Reply>) | Fault

  // ---- what to do about a POST, as docs/panel-contract.md has it ----

  /** The panel has accepted exactly this report. */
  predicate Confirms(x: Response, b: Batch) {
    && x.answer.Some? && AckMatches(x.answer.value, b)
    && x.exhausted.Some? && forall id :: id in x.exhausted.value ==> 0 < id
  }

  function ConflictIn(x: Response): Option<Reply> {
    if x.answer.Some? && x.answer.value.Conflict? then x.answer else None
  }

  /** One more failure; the count stops at three. */
  function Raised(failures: int): int { if failures + 1 < 3 then failures + 1 else 3 }

  /** The answer shows that the panel has accepted a later report. */
  predicate FoundAhead(conflict: Option<Reply>, b: Batch) { conflict.Some? && CanIsolate(conflict.value, b) }

  /** The batch is gone, and reporting goes on at `next`. */
  predicate At(o: Option<ReportState>, next: nat) { o.Some? && o.value.pending.None? && o.value.next == next }

  datatype Decision = Isolating | Rebasing | Keeping

  /** What becomes of a batch whose POST was not confirmed, `failures` counting this one: isolated if the
      cursor is shown to be ahead or after three failures; rebased, once per round, if another report
      holds exactly its sequence and it was not committed; else kept for the next round. */
  function Decide(conflict: Option<Reply>, b: Batch, failures: int, committed: bool, attempt: nat): Decision {
    if FoundAhead(conflict, b) || failures >= 3 then Isolating
    else if attempt == 0 && conflict.Some? && CanRebase(conflict.value, b) && !committed then Rebasing
    else Keeping
  }

  /** The batch of `was` is still pending, without a marker. */
  predicate Retained(o: Option<ReportState>, was: ReportState, sequence: nat, failures: int)
    requires was.pending.Some?
  {
    && o.Some? && o.value.pending == Some(was.pending.value.(sequence := sequence)) && o.value.resolution.None?
    && o.value.failures == failures && o.value.buffered == was.buffered
  }

  /** What has become of the batch of `o` when `failures` are counted. */
  predicate Chosen(conflict: Option<Reply>, attempt: nat, o: ReportState, failures: int, committed: bool, r: Outcome,
                   done: bool, after: Option<ReportState>)
    requires o.pending.Some?
  {
    match Decide(conflict, o.pending.value, failures, committed, attempt)
    case Isolating => done && r.Done? && (FoundAhead(conflict, o.pending.value) ==> At(after, conflict.value.next))
    case Rebasing => !done && Retained(after, o, Inc64(o.pending.value.sequence), failures)
    case Keeping => done && r == Unconfirmed(conflict) && Retained(after, o, o.pending.value.sequence, failures)
  }

  /** After a POST that was not confirmed. */
  predicate Resolved(conflict: Option<Reply>, attempt: nat, o: ReportState, committed: bool, r: Outcome, done: bool,
                     after: Option<ReportState>)
    requires o.pending.Some?
  {
    Chosen(conflict, attempt, o, Raised(o.failures), committed, r, done, after)
  }

  /** After a POST. */
  predicate ResolvedBy(x: Response, attempt: nat, o: ReportState, committed: bool, r: Outcome, done: bool,
                       after: Option<ReportState>)
    requires o.pending.Some?
  {
    if Confirms(x, o.pending.value) then done && r.Done? && At(after, Inc64(o.pending.value.sequence))
    else Resolved(ConflictIn(x), attempt, o, committed, r, done, after)
  }

  /** The first POST was answered by an exact collision. */
  predicate Rebased(x: Response, o: ReportState, committed: bool, after: Option<ReportState>)
    requires o.pending.Some?
  {
    && !Confirms(x, o.pending.value)
    && Decide(ConflictIn(x), o.pending.value, Raised(o.failures), committed, 0).Rebasing?
    && Retained(after, o, Inc64(o.pending.value.sequence), Raised(o.failures))
  }

  /** One or two passes make a round. */
  lemma FollowsFrom(came: seq<Response>, attempt: nat, o: ReportState, was: ReportState, committed: bool, r: Outcome,
                    after: Option<ReportState>)
    requires o.pending.Some? && attempt <= 1 && |came| == attempt + 1 && was.pending.Some?
    requires if attempt == 0 then was == o else Rebased(came[0], o, committed, Some(was))
    requires ResolvedBy(came[attempt], attempt, was, committed, r, true, after)
    ensures Followed(came, o, committed, r, after)
  {
  }

  /** The outcome of a round of POSTs in which nothing else has failed: `o` before it, `after` afterwards. */
  predicate Followed(came: seq<Response>, o: ReportState, committed: bool, r: Outcome, after: Option<ReportState>)
    requires o.pending.Some?
  {
    var b := o.pending.value;
    && 1 <= |came|
    && if Confirms(came[0], b) then |came| == 1 && r.Done? && At(after, Inc64(b.sequence))
       else match Decide(ConflictIn(came[0]), b, Raised(o.failures), committed, 0)
            case Isolating =>
              |came| == 1 && r.Done?
                && (FoundAhead(ConflictIn(came[0]), b) ==> At(after, ConflictIn(came[0]).value.next))
            case Keeping =>
              && |came| == 1 && r == Unconfirmed(ConflictIn(came[0]))
              && Retained(after, o, b.sequence, Raised(o.failures))
            case Rebasing => |came| == 2 && FollowedAgain(came[1], o, Inc64(b.sequence), committed, r, after)
  }

  /** The second POST, under the next sequence. */
  predicate FollowedAgain(x: Response, o: ReportState, sequence: nat, committed: bool, r: Outcome,
                          after: Option<ReportState>)
    requires o.pending.Some?
  {
    var b, failures := o.pending.value.(sequence := sequence), Raised(Raised(o.failures));
    if Confirms(x, b) then r.Done? && At(after, Inc64(sequence))
    else if Decide(ConflictIn(x), b, failures, committed, 1).Isolating?
    then r.Done? && (FoundAhead(ConflictIn(x), b) ==> At(after, ConflictIn(x).value.next))
    else r == Unconfirmed(ConflictIn(x)) && Retained(after, o, sequence, failures)
  }

  /** The state `o` with a new pending batch. */
  function WithBatch(o: ReportState, b: Batch, buffered: seq<Row>): ReportState {
    ReportState(1, o.next, Some(b), buffered, 0, None, o.held)
  }

  lemma NextFromBuffer(s: Sys, m: Mem)
    requires Ready(m) && m.outbox.value.pending.None? && m.recovered && m.queued == [] && !m.draining
    requires m.outbox.value.buffered != [] && ValidRows(m.outbox.value.buffered)
    ensures var o, p := m.outbox.value, Pick(m.outbox.value.buffered);
            && CanChange(s, m, FromBuffer)
            && NextState(m, FromBuffer, |s.issued|) == WithBatch(o, Batch(o.next, p.selected, |s.issued|), p.rest)
  {
  }

  lemma NextFromCounters(s: Sys, m: Mem)
    requires Ready(m) && m.outbox.value.pending.None? && !m.draining && m.queued != [] && ValidRows(m.queued)
    ensures var o, p := m.outbox.value, Pick(m.queued);
            && CanChange(s, m, FromCounters)
            && NextState(m, FromCounters, |s.issued|) == WithBatch(o, Batch(o.next, p.selected, |s.issued|), [])
  {
  }

  /** A complete capture can be drained beside the pending batch. */
  lemma FinalCaptureFits(s: Sys, m: Mem, rows: seq<Row>)
    requires CountersOk(s) && LiveOk(s) && s.client == Some(m) && CompleteCapture(s.ram, rows)
    ensures ValidCounters(s.ram) && "" !in s.ram && Covered(s.ram, LiveRows(m)) && ConsistentTail(rows, LiveRows(m))
  {
    CoveredSplit(s.ram, LiveRows(m), m.queued);
    CompleteCaptureIsConsistent(s.ram, rows, LiveRows(m));
  }

  /** An empty state behind at least `accepted` reports. */
  predicate StartsAt(x: ReportState, accepted: nat) {
    x == ReportState(1, x.next, None, [], 0, None, []) && accepted < x.next
  }

  /** A save may also drop the audit list. */
  predicate OnlyBufferChanged(x: ReportState, y: ReportState) {
    x == y.(buffered := x.buffered) || x == y.(buffered := x.buffered, held := [])
  }

  const NO_STATE := ReportState(1, 0, None, [], 0, None, [])

  class Client {
    const w: World
    var outbox: Option<ReportState>
    var unsynced: Option<ReportState>
    var recovered: bool
    var committed: bool
    var draining: bool
    var drainSaved: bool
    var drainBase: seq<Row>
    var lastTrafficUid: int
    /** Unconfirmed POSTs so far; and how many of these, and how many refusals, there had been when this
        process formed the pending batch. */
    ghost var unconfirmed: nat
    ghost var since: Option<Formed>
    /** The batches that have left the outbox, acknowledged or isolated. */
    ghost var reported: seq<seq<Row>>

    // ---- coupling with the machine ----

    ghost predicate Coupled()
      reads this, w
    {
      && w.Valid() && w.sys.client.Some?
      && w.sys.client.value
         == Mem(outbox, unsynced, recovered, committed, draining, drainSaved, drainBase, w.sys.client.value.queued)
      && (since.Some? ==> since.value.faults <= w.faults && since.value.unconfirmed <= unconfirmed)
    }

    /** Unconfirmed POSTs of the pending batch. */
    ghost function Tries(): nat
      reads this
    {
      if since.Some? && since.value.unconfirmed <= unconfirmed then unconfirmed - since.value.unconfirmed else 0
    }

    ghost function Queued(): seq<Row>
      reads w
    {
      if w.sys.client.Some? then w.sys.client.value.queued else []
    }

    ghost predicate Loaded()
      reads this
    {
      outbox.Some? && unsynced.None?
    }

    ghost predicate Pending()
      reads this
    {
      Loaded() && outbox.value.pending.Some?
    }

    /** The pending batch is from an earlier process, or a rename, a sync or a cursor has been refused
        since it was formed. */
    ghost predicate Faulted()
      reads this, w
    {
      since.None? || since.value.faults != w.faults
    }

    /** Until then, `Failures` counts the unconfirmed POSTs, and a batch that is still being retried has
        had fewer than three. */
    ghost predicate RetriesCounted()
      reads this, w
    {
      && (unsynced.Some? ==> Faulted())
      && (!Faulted() && Pending() && outbox.value.resolution.None? ==> Tries() == outbox.value.failures < 3)
    }

    /** What the durable file promises after a drain: the old buffer and all counters, and the
        pending batch on top only if its bytes are no longer in those counters. */
    ghost predicate Conserved()
      reads this, w
    {
      Loaded() && w.sys.durable == Some(Erase(outbox.value)) && forall uid, d :: Balanced(w.sys.ram, uid, d)
    }

    ghost predicate Balanced(ram: Counters, uid: int, d: Direction)
      requires Loaded()
      reads this
    {
      Bytes(outbox.value.buffered, uid, d) + PendingBytes(uid, d)
        == Bytes(drainBase, uid, d) + RamTotal(ram, uid, d)
           + if committed || recovered then PendingBytes(uid, d) else 0
    }

    ghost function PendingBytes(uid: int, d: Direction): int
      reads this
    {
      if Pending() then Bytes(outbox.value.pending.value.rows, uid, d) else 0
    }

    ghost predicate Valid()
      reads this, w
    {
      && Coupled() && RetriesCounted() && Queued() == []
      && (drainSaved ==> draining && w.quiesced && Conserved())
    }

    /** A client that has not touched the outbox yet, in a process that has just started. */
    constructor (w: World)
      requires w.Valid() && w.sys.client == Some(FRESH_CLIENT)
      ensures Valid() && this.w == w && outbox.None?
    {
      this.w := w;
      outbox, unsynced, recovered, committed := None, None, false, false;
      draining, drainSaved, drainBase, lastTrafficUid := false, false, [], 0;
      unconfirmed, since, reported := 0, None, [];
    }

    // ---- load and save ----

    /** finishStateSync */
    method FinishStateSync() returns (ok: bool)
      requires Coupled() && unsynced.Some?
      modifies this`outbox, this`unsynced, this`recovered, this`committed, w`sys, w`run, w`tick, w`faults,
               w`setbacks
      ensures Coupled() && Queued() == old(Queued()) && w.Steady()
      ensures Sends(w.run) == Sends(old(w.run)) && w.faults == old(w.faults) + if ok then 0 else 1
      ensures w.setbacks == old(w.setbacks) + if ok then 0 else 1
      ensures !ok ==> outbox == old(outbox) && unsynced == old(unsynced)
                      && recovered == old(recovered) && committed == old(committed)
      ensures ok ==> outbox == old(unsynced) && unsynced.None?
                     && recovered == (old(recovered) && outbox.value.pending.Some?)
                     && committed == (old(committed) && outbox.value.pending.Some?)
                     && w.sys.durable == Some(Erase(outbox.value))
    {
      ok := w.SyncDirectory();
      if ok {
        AdoptSynced();
      }
    }

    /** What finishStateSync does in memory once the directory is synchronised. */
    method AdoptSynced()
      requires unsynced.Some?
      modifies this`outbox, this`unsynced, this`recovered, this`committed
      ensures outbox == old(unsynced) && unsynced.None?
      ensures recovered == (old(recovered) && outbox.value.pending.Some?)
      ensures committed == (old(committed) && outbox.value.pending.Some?)
    {
      outbox, unsynced := unsynced, None;
      if outbox.value.pending.None? {
        recovered, committed := false, false;
      }
    }

    /** saveReportState. `change` only names which change of the machine `next` is; the size bound may
        drop the audit list, nothing else. */
    method SaveReportState(next: ReportState, change: Change) returns (ok: bool)
      requires Coupled() && unsynced.None? && CanChange(w.sys, w.sys.client.value, change)
      requires next == NextState(w.sys.client.value, change, |w.sys.issued|)
      modifies this`outbox, this`unsynced, this`recovered, this`committed, w`sys, w`run, w`tick, w`faults,
               w`setbacks
      ensures Coupled() && w.Steady()
      ensures Sends(w.run) == Sends(old(w.run)) && w.faults == old(w.faults) + if ok then 0 else 1
      ensures w.setbacks == old(w.setbacks) + if ok then 0 else 1
      ensures !ok ==> outbox == old(outbox) && recovered == old(recovered) && committed == old(committed)
      ensures ok ==> Loaded() && (outbox.value == next || outbox.value == next.(held := []))
                     && recovered == (old(recovered) && next.pending.Some?)
                     && committed == (old(committed) && next.pending.Some?)
                     && w.sys.durable == Some(Erase(outbox.value))
      ensures Queued() == old(Queued()) || (change.FromCounters? && Queued() == Pick(old(Queued())).rest)
      ensures ok && change.FromCounters? ==> Queued() == Pick(old(Queued())).rest
    {
      ok := RenameState(next, change);
      if ok {
        ok := FinishStateSync();
      }
    }

    /** The first half of saveReportState: the new state is on file, but not yet durable. */
    method RenameState(next: ReportState, change: Change) returns (ok: bool)
      requires Coupled() && unsynced.None? && CanChange(w.sys, w.sys.client.value, change)
      requires next == NextState(w.sys.client.value, change, |w.sys.issued|)
      modifies this`unsynced, w`sys, w`run, w`tick, w`faults, w`setbacks
      ensures Coupled() && w.Steady()
      ensures Sends(w.run) == Sends(old(w.run)) && w.faults == old(w.faults) + if ok then 0 else 1
      ensures w.setbacks == old(w.setbacks) + if ok then 0 else 1
      ensures if ok then unsynced == Some(next) || unsynced == Some(next.(held := [])) else unsynced.None?
      ensures Queued() == if ok && change.FromCounters? then Pick(old(Queued())).rest else old(Queued())
    {
      var renamed := w.RenameTo(change, next);
      unsynced := renamed;
      ok := renamed.Some?;
    }

    /** The state that a load should find: that of the last rename if this process has made one, else the
        known one, else the file. */
    ghost function Expected(): Option<ReportState>
      reads this, w
    {
      if unsynced.Some? then unsynced else if outbox.Some? then outbox else w.sys.visible
    }

    /** A first state, at the cursor that the panel has reported meanwhile. */
    twostate predicate IsFirstState(x: ReportState)
      reads this, w
    {
      StartsAt(x, |old(w.sys).log|) && x.next <= |w.sys.log| + 1
    }

    /** loadReportState. With one controller, the file is always the one memory expects and always
        passes validation, so "changed on disk", "changed by another controller" and "invalid
        traffic outbox" cannot be returned; the only errors are failed reads, syncs and saves and
        a panel that does not give a cursor. */
    method LoadReportState() returns (ok: bool)
      requires Valid()
      modifies this`outbox, this`unsynced, this`recovered, this`committed, this`since, w`sys, w`run, w`tick,
               w`faults, w`setbacks
      ensures Valid() && w.Steady() && Sends(w.run) == Sends(old(w.run))
      ensures w.setbacks >= old(w.setbacks) + if ok then 0 else 1
      ensures ok ==> Loaded()
      ensures ok && old(Expected()).Some? ==> outbox == old(Expected())
      ensures ok && old(Expected()).None? ==> IsFirstState(outbox.value)
      ensures ok && old(Loaded()) ==> recovered == old(recovered) && committed == old(committed)
    {
      if unsynced.Some? {
        ok := RetryUnsynced();
        if !ok {
          return false;
        }
      }
      if outbox.Some? {
        ok := CheckFile();
      } else {
        ok := FirstLoad();
      }
    }

    /** The file is the one memory knows. */
    method CheckFile() returns (ok: bool)
      requires Valid() && Loaded()
      modifies w`sys, w`run, w`tick, w`setbacks
      ensures Valid() && w.Steady() && Sends(w.run) == Sends(old(w.run))
      ensures w.setbacks == old(w.setbacks) + if ok then 0 else 1
    {
      var disk := w.ReadFile();
      w.Agreement();
      if disk.Missing? {
        assert false;
      }
      if !disk.Content? {
        return false;
      }
      if disk.state != Erase(outbox.value) {
        assert false;
      }
      ok := true;
    }

    method RetryUnsynced() returns (ok: bool)
      requires Valid() && unsynced.Some?
      modifies this`outbox, this`unsynced, this`recovered, this`committed, w`sys, w`run, w`tick, w`faults,
               w`setbacks
      ensures Valid() && w.Steady() && Sends(w.run) == Sends(old(w.run))
      ensures w.setbacks == old(w.setbacks) + if ok then 0 else 1
      ensures ok ==> Loaded() && outbox == old(unsynced)
    {
      var disk := w.ReadFile();
      w.Agreement();
      if disk.Missing? {
        assert false;
      }
      if !disk.Content? {
        return false;
      }
      if disk.state != Erase(unsynced.value) {
        assert false;
      }
      ok := FinishStateSync();
    }

    method FirstLoad() returns (ok: bool)
      requires Valid() && outbox.None? && unsynced.None?
      modifies this`outbox, this`unsynced, this`recovered, this`committed, this`since, w`sys, w`run, w`tick,
               w`faults, w`setbacks
      ensures Valid() && w.Steady() && Sends(w.run) == Sends(old(w.run))
      ensures w.setbacks >= old(w.setbacks) + if ok then 0 else 1
      ensures ok ==> Loaded()
      ensures ok && old(w.sys).visible.Some? ==> outbox == old(w.sys).visible
      ensures ok && old(w.sys).visible.None? ==> IsFirstState(outbox.value)
    {
      var disk := w.ReadFile();
      if disk.Failed? {
        return false;
      }
      if disk.Content? {
        ok := AdoptFile(disk.state);
      } else {
        w.Invariant();
        ok := CreateFile();
      }
    }

    /** "Invalid traffic outbox" cannot happen. */
    method AdoptFile(file: ReportState) returns (ok: bool)
      requires Valid() && outbox.None? && unsynced.None? && w.sys.visible == Some(file)
      modifies this`outbox, this`recovered, this`since, w`sys, w`run
      ensures Valid() && w.Steady() && Sends(w.run) == Sends(old(w.run))
      ensures ok && Loaded() && outbox == Some(file)
    {
      w.Invariant();
      if !Loadable(file) {
        assert false;
      }
      w.Load();
      outbox, recovered := Some(file), file.pending.Some?;
      since := None;
      ok := true;
    }

    /** No file yet: start at the panel's cursor. */
    method CreateFile() returns (ok: bool)
      requires Valid() && outbox.None? && unsynced.None? && !draining && w.sys.visible.None?
      modifies this`outbox, this`unsynced, this`recovered, this`committed, w`sys, w`run, w`tick, w`faults,
               w`setbacks
      ensures Valid() && w.Steady() && Sends(w.run) == Sends(old(w.run))
      ensures w.setbacks >= old(w.setbacks) + if ok then 0 else 1
      ensures ok ==> Loaded() && IsFirstState(outbox.value)
    {
      var next := w.GetCursor();
      if next.None? || next.value == 0 || next.value >= TWO_64 {
        return false;
      }
      ok := SaveReportState(ReportState(1, next.value, None, [], 0, None, []), Init(next.value));
    }

    // ---- leaving the outbox ----

    /** There is no next sequence. */
    ghost predicate AtLastSequence()
      reads this
    {
      Pending() && Inc64(outbox.value.pending.value.sequence) == 0
    }

    /** Subtract a live batch from the counters, once. */
    method CommitLiveRows() returns (ok: bool)
      requires Coupled() && Pending() && !draining
      requires outbox.value.resolution.Some?
            || Ack(outbox.value.pending.value.sequence, BodyOf(outbox.value.pending.value)) in w.sys.replies
      modifies this`committed, w`sys, w`run, w`tick, w`setbacks
      ensures Coupled() && Queued() == old(Queued()) && Sends(w.run) == Sends(old(w.run))
      ensures w.setbacks == old(w.setbacks) + if ok then 0 else 1
      ensures old(w.sys.replies) <= w.sys.replies
      ensures ok ==> committed || recovered
      ensures old(committed) ==> committed
    {
      ok := true;
      if !committed && !recovered {
        ok := w.Attempt();
        if ok {
          w.Commit();
          committed := true;
        }
      }
    }

    /** sendPendingOnce: one POST of the pending batch and, if it is acknowledged, the advance to
        the next sequence. */
    method SendPendingOnce() returns (r: Outcome)
      requires Coupled() && Pending() && !draining && outbox.value.resolution.None?
      modifies this`outbox, this`unsynced, this`recovered, this`committed, this`lastTrafficUid, this`reported,
               this`unconfirmed, w`sys, w`run, w`tick, w`faults, w`setbacks, w`exhausted, w`responses,
               w`revoked
      ensures w.faults >= old(w.faults)
      ensures Coupled() && Queued() == old(Queued()) && Sends(w.run) == Sends(old(w.run)) + 1
      ensures |w.responses| == |old(w.responses)| + 1 && w.responses[..|old(w.responses)|] == old(w.responses)
      ensures r.Unconfirmed? <==> !Confirms(w.responses[|old(w.responses)|], old(outbox).value.pending.value)
      ensures w.setbacks >= old(w.setbacks)
      ensures reported == old(reported) + if r.Done? then [old(outbox).value.pending.value.rows] else []
      ensures r.Done? ==>
                && Loaded() && outbox.value.pending.None? && outbox.value.buffered == old(outbox).value.buffered
                && lastTrafficUid == LastUid(old(outbox).value.pending.value.rows)
                && outbox.value.next == Inc64(old(outbox).value.pending.value.sequence)
                && w.exhausted.Some? && forall id :: id in w.exhausted.value ==> id in w.revoked
      ensures r.Unconfirmed? ==>
                && Pending() && outbox == old(outbox) && recovered == old(recovered) && committed == old(committed)
                && unconfirmed == old(unconfirmed) + 1 && Faulted() == old(Faulted())
                && w.setbacks == old(w.setbacks) && w.sys.posted
                && r.conflict == ConflictIn(w.responses[|old(w.responses)|])
                && (r.conflict.Some? ==> r.conflict.value in w.sys.replies && r.conflict.value.Conflict?)
      ensures !r.Unconfirmed? ==> unconfirmed == old(unconfirmed)
      ensures r.Fault? ==>
                && outbox == old(outbox) && (Faulted() || (unsynced.None?))
                && (w.setbacks > old(w.setbacks) || AtLastSequence())
    {
      var batch := outbox.value.pending.value;
      var accepted, conflict := PostPending(batch);
      if !accepted {
        unconfirmed := unconfirmed + 1;
        return Unconfirmed(conflict);
      }
      var ok := CommitLiveRows();
      if !ok {
        return Fault;
      }
      r := AdvancePast(batch);
    }

    /** The POST, and what the answer says. */
    method PostPending(batch: Batch) returns (accepted: bool, conflict: Option<Reply>)
      requires Coupled() && Pending() && !draining && outbox.value.resolution.None?
               && outbox.value.pending == Some(batch)
      modifies w`sys, w`run, w`tick, w`exhausted, w`responses
      ensures Coupled() && Queued() == old(Queued()) && Sends(w.run) == Sends(old(w.run)) + 1 && w.sys.posted
      ensures |w.responses| == |old(w.responses)| + 1 && w.responses[..|old(w.responses)|] == old(w.responses)
      ensures accepted == Confirms(w.responses[|old(w.responses)|], batch)
      ensures conflict == ConflictIn(w.responses[|old(w.responses)|])
      ensures accepted ==> w.exhausted.Some? && Ack(batch.sequence, BodyOf(batch)) in w.sys.replies
      ensures conflict.Some? ==> conflict.value in w.sys.replies && conflict.value.Conflict?
    {
      var answer := w.Post();
      accepted := ValidateTrafficAck(answer, w.exhausted, batch);
      conflict := if answer.Some? && answer.value.Conflict? then answer else None;
    }

    /** The rest of sendPendingOnce: revoke, then save the state with the next sequence. */
    method AdvancePast(batch: Batch) returns (r: Outcome)
      requires Coupled() && Pending() && !draining && outbox.value.resolution.None? && (committed || recovered)
      requires batch == outbox.value.pending.value && w.exhausted.Some?
      requires Ack(batch.sequence, BodyOf(batch)) in w.sys.replies
      modifies this`outbox, this`unsynced, this`recovered, this`committed, this`lastTrafficUid, this`reported,
               w`sys, w`run, w`tick, w`faults, w`setbacks, w`revoked
      ensures w.faults >= old(w.faults)
      ensures Coupled() && Queued() == old(Queued()) && Sends(w.run) == Sends(old(w.run))
      ensures w.setbacks >= old(w.setbacks)
      ensures r.Done? ==>
                && Loaded() && outbox.value.pending.None? && outbox.value.buffered == old(outbox).value.buffered
                && lastTrafficUid == LastUid(batch.rows) && outbox.value.next == Inc64(batch.sequence)
                && forall id :: id in w.exhausted.value ==> id in w.revoked
      ensures reported == if r.Done? then old(reported) + [batch.rows] else old(reported)
      ensures !r.Unconfirmed? && (r.Fault? ==> outbox == old(outbox) && (Faulted() || (unsynced.None?)))
      ensures r.Fault? ==> w.setbacks > old(w.setbacks) || AtLastSequence()
    {
      // Stop exhausted accounts before another snapshot is fetched or a new batch is sent.
      var ok := w.Revoke(w.exhausted.value);
      if !ok {
        return Fault;
      }
      lastTrafficUid := LastUid(batch.rows);
      if Inc64(batch.sequence) == 0 {
        return Fault;
      }
      ok := SaveAdvance(batch);
      if !ok {
        return Fault;
      }
      reported := reported + [batch.rows];
      r := Done;
    }

    method SaveAdvance(batch: Batch) returns (ok: bool)
      requires Coupled() && Pending() && !draining && outbox.value.resolution.None? && (committed || recovered)
      requires batch == outbox.value.pending.value && Inc64(batch.sequence) != 0
      requires Ack(batch.sequence, BodyOf(batch)) in w.sys.replies
      modifies this`outbox, this`unsynced, this`recovered, this`committed, w`sys, w`run, w`tick, w`faults,
               w`setbacks
      ensures Coupled() && Queued() == old(Queued()) && Sends(w.run) == Sends(old(w.run))
      ensures w.faults == old(w.faults) + if ok then 0 else 1
      ensures w.setbacks == old(w.setbacks) + if ok then 0 else 1
      ensures ok ==> Loaded() && outbox.value.pending.None? && outbox.value.buffered == old(outbox).value.buffered
                     && outbox.value.next == Inc64(batch.sequence)
      ensures !ok ==> outbox == old(outbox)
    {
      var now := w.Clock();
      var held := TrimTrafficHolds(outbox.value.held, now);
      ok := SaveReportState(
        ReportState(1, Inc64(batch.sequence), None, outbox.value.buffered, 0, None, held), Advance(now));
    }

    // ---- isolation ----

    /** readTrafficCursor: a cursor outside 1..2^63-1 authorises nothing. */
    method ReadTrafficCursor() returns (next: Option<nat>)
      requires Coupled()
      modifies w`sys, w`run, w`tick, w`faults, w`setbacks
      ensures Coupled() && Queued() == old(Queued()) && w.Steady() && Sends(w.run) == Sends(old(w.run))
      ensures w.faults == old(w.faults) + if next.Some? then 0 else 1
      ensures w.setbacks == old(w.setbacks) + if next.Some? then 0 else 1
      ensures next.Some? ==> 0 < next.value <= MAX_INT64 && |old(w.sys).log| < next.value <= |w.sys.log| + 1
    {
      next := w.GetCursor();
      if next.Some? && !(0 < next.value <= MAX_INT64) {
        next := None;
      }
    }

    /** isolateTraffic: the marker is durable before anything else happens. `proof` only names the answer
        that shows the cursor to be ahead, if there is one. */
    method IsolateTraffic(next: nat, proof: Option<Reply>) returns (r: Outcome)
      requires Coupled() && Pending() && !draining && outbox.value.resolution.None? && 0 < next <= MAX_INT64
      requires MayMark(w.sys, outbox.value, next, proof)
      modifies this`outbox, this`unsynced, this`recovered, this`committed, this`lastTrafficUid, this`reported,
               w`sys, w`run, w`tick, w`faults, w`setbacks, w`eligible, w`revoked
      ensures w.faults >= old(w.faults)
      ensures Coupled() && Queued() == old(Queued()) && Sends(w.run) == Sends(old(w.run))
      ensures w.setbacks >= old(w.setbacks) + if r.Done? then 0 else 1
      ensures r.Done? ==>
                && Loaded() && outbox.value.pending.None? && outbox.value.next == next
                && outbox.value.buffered == old(outbox).value.buffered
                && lastTrafficUid == LastUid(old(outbox).value.pending.value.rows)
      ensures reported == old(reported) + if r.Done? then [old(outbox).value.pending.value.rows] else []
      ensures !r.Unconfirmed? && (r.Fault? ==> Faulted() || (Pending() && outbox.value.resolution.Some?))
    {
      var now := w.Clock();
      var ok := SaveMarker(next, now, proof);
      if !ok {
        return Fault;
      }
      r := FinishTrafficIsolation();
    }

    method SaveMarker(next: nat, now: int, proof: Option<Reply>) returns (ok: bool)
      requires Coupled() && Pending() && !draining && outbox.value.resolution.None? && 0 < next <= MAX_INT64 && 0 < now
      requires MayMark(w.sys, outbox.value, next, proof)
      modifies this`outbox, this`unsynced, this`recovered, this`committed, w`sys, w`run, w`tick, w`faults,
               w`setbacks
      ensures Coupled() && Queued() == old(Queued()) && Sends(w.run) == Sends(old(w.run))
      ensures w.faults == old(w.faults) + if ok then 0 else 1
      ensures w.setbacks == old(w.setbacks) + if ok then 0 else 1
      ensures ok ==>
                && Pending() && outbox.value.resolution == Some(Resolution(next, now))
                && outbox.value.pending == old(outbox).value.pending
                  && outbox.value.buffered == old(outbox).value.buffered
    {
      ok := SaveReportState(outbox.value.(resolution := Some(Resolution(next, now))), Mark(next, now, proof));
    }

    /** finishTrafficIsolation: refresh eligibility, revoke, commit, then replace the batch by an
        audit entry. Every failure keeps the marker for a retry. */
    method FinishTrafficIsolation() returns (r: Outcome)
      requires Coupled() && Pending() && !draining && outbox.value.resolution.Some?
      modifies this`outbox, this`unsynced, this`recovered, this`committed, this`lastTrafficUid, this`reported,
               w`sys, w`run, w`tick, w`faults, w`setbacks, w`eligible, w`revoked
      ensures w.faults >= old(w.faults)
      ensures Coupled() && Queued() == old(Queued()) && Sends(w.run) == Sends(old(w.run))
      ensures w.setbacks >= old(w.setbacks) + if r.Done? then 0 else 1
      ensures r.Done? ==>
                && Loaded() && outbox.value.pending.None?
                && outbox.value.next == old(outbox).value.resolution.value.next
                && outbox.value.buffered == old(outbox).value.buffered
                && lastTrafficUid == LastUid(old(outbox).value.pending.value.rows)
                && forall row :: row in old(outbox).value.pending.value.rows ==>
                     row.uid in w.eligible || row.uid in w.revoked
      ensures reported == old(reported) + if r.Done? then [old(outbox).value.pending.value.rows] else []
      ensures !r.Unconfirmed? && (r.Fault? ==> Faulted() || (outbox == old(outbox) && unsynced.None?))
    {
      var batch := outbox.value.pending.value;
      var users := w.FetchUsers();
      if users.None? {
        return Fault;
      }
      var affected := Ineligible(batch.rows, users.value);
      var ok := w.Revoke(affected);
      if !ok {
        return Fault;
      }
      r := ReplaceByHold();
    }

    /** The rest of finishTrafficIsolation: commit, then save the audit entry and the new cursor. */
    method ReplaceByHold() returns (r: Outcome)
      requires Coupled() && Pending() && !draining && outbox.value.resolution.Some?
      modifies this`outbox, this`unsynced, this`recovered, this`committed, this`lastTrafficUid, this`reported,
               w`sys, w`run, w`tick, w`faults, w`setbacks
      ensures w.faults >= old(w.faults)
      ensures Coupled() && Queued() == old(Queued()) && Sends(w.run) == Sends(old(w.run))
      ensures w.setbacks >= old(w.setbacks) + if r.Done? then 0 else 1
      ensures r.Done? ==>
                && Loaded() && outbox.value.pending.None?
                && outbox.value.next == old(outbox).value.resolution.value.next
                && outbox.value.buffered == old(outbox).value.buffered
                && lastTrafficUid == LastUid(old(outbox).value.pending.value.rows)
      ensures reported == old(reported) + if r.Done? then [old(outbox).value.pending.value.rows] else []
      ensures !r.Unconfirmed? && (r.Fault? ==> Faulted() || (outbox == old(outbox) && unsynced.None?))
    {
      var batch, resolution := outbox.value.pending.value, outbox.value.resolution.value;
      var ok := CommitLiveRows();
      if !ok {
        return Fault;
      }
      ok := SaveHold(batch, resolution);
      if !ok {
        return Fault;
      }
      lastTrafficUid := LastUid(batch.rows);
      reported := reported + [batch.rows];
      r := Done;
    }

    method SaveHold(batch: Batch, resolution: Resolution) returns (ok: bool)
      requires Coupled() && Pending() && !draining && (committed || recovered)
      requires batch == outbox.value.pending.value && outbox.value.resolution == Some(resolution)
      modifies this`outbox, this`unsynced, this`recovered, this`committed, w`sys, w`run, w`tick, w`faults,
               w`setbacks
      ensures Coupled() && Queued() == old(Queued()) && Sends(w.run) == Sends(old(w.run))
      ensures w.faults == old(w.faults) + if ok then 0 else 1
      ensures w.setbacks == old(w.setbacks) + if ok then 0 else 1
      ensures ok ==> Loaded() && outbox.value.pending.None? && outbox.value.next == resolution.next
                     && outbox.value.buffered == old(outbox).value.buffered
      ensures !ok ==> outbox == old(outbox)
    {
      var now := w.Clock();
      var held := TrimTrafficHolds(outbox.value.held + [Hold(resolution.at, batch)], now);
      ok := SaveReportState(ReportState(1, resolution.next, None, outbox.value.buffered, 0, None, held), Finish(now));
    }

    // ---- rebase ----

    /** rebaseTrafficConflict: the same rows under the next sequence, only on an exact collision. */
    method RebaseTrafficConflict(conflict: Reply) returns (ok: bool)
      requires Coupled() && Pending() && !draining && outbox.value.resolution.None?
      requires conflict in w.sys.replies && conflict.Conflict?
      modifies this`outbox, this`unsynced, this`recovered, this`committed, w`sys, w`run, w`tick, w`faults,
               w`setbacks
      ensures w.faults >= old(w.faults)
      ensures Coupled() && Queued() == old(Queued()) && Sends(w.run) == Sends(old(w.run))
      ensures old(w.sys.replies) <= w.sys.replies && w.setbacks >= old(w.setbacks)
      ensures ok ==>
                && w.setbacks == old(w.setbacks) && !old(committed)
                  && CanRebase(conflict, old(outbox).value.pending.value)
                && Loaded()
                && Retained(outbox, old(outbox).value, Inc64(old(outbox).value.pending.value.sequence),
                  old(outbox).value.failures)
                && recovered == old(recovered) && committed == old(committed) && Faulted() == old(Faulted())
      ensures !ok ==>
                && outbox == old(outbox) && committed == old(committed) && (Faulted() || (unsynced.None?))
                && (w.setbacks > old(w.setbacks) || old(committed) || !CanRebase(conflict, outbox.value.pending.value))
    {
      var batch := outbox.value.pending.value;
      if committed || !CanRebase(conflict, batch) {
        return false;
      }
      ok := SaveReportState(
        ReportState(1, conflict.next, Some(Batch(conflict.next, batch.rows, batch.origin)), outbox.value.buffered,
                    outbox.value.failures, None, outbox.value.held),
        Rebase(conflict));
    }

    // ---- sending ----

    /** sendPending: at most two POSTs, the second only after a rebase. */
    method SendPending() returns (r: Outcome)
      requires Coupled() && RetriesCounted() && Loaded() && !draining
      modifies this`outbox, this`unsynced, this`recovered, this`committed, this`lastTrafficUid, this`reported,
               this`unconfirmed, w`sys, w`run, w`tick, w`faults, w`setbacks, w`exhausted, w`responses,
               w`eligible, w`revoked
      ensures Coupled() && RetriesCounted() && Queued() == old(Queued())
      ensures Sends(w.run) <= Sends(old(w.run)) + if old(Pending()) then 2 else 0
      ensures w.setbacks >= old(w.setbacks) && unconfirmed >= old(unconfirmed)
      ensures |w.responses| >= |old(w.responses)| && w.responses[..|old(w.responses)|] == old(w.responses)
      ensures !old(Pending()) ==> r.Done? && outbox == old(outbox) && lastTrafficUid == old(lastTrafficUid)
      ensures reported == old(reported)
                          + if r.Done? && old(Pending()) then [old(outbox).value.pending.value.rows] else []
      ensures r.Done? ==> Loaded() && outbox.value.pending.None? && outbox.value.buffered == old(outbox).value.buffered
      ensures r.Done? && old(Pending()) ==> lastTrafficUid == LastUid(old(outbox).value.pending.value.rows)
      ensures !r.Done? ==> Hindered()
      ensures old(Pending()) && w.setbacks == old(w.setbacks) && !old(AtLastSequence()) ==>
                if old(outbox).value.resolution.Some? then r.Done? && w.responses == old(w.responses)
                else Followed(w.responses[|old(w.responses)|..], old(outbox).value, old(committed), r, outbox)
    {
      if outbox.value.resolution.Some? {
        if outbox.value.pending.None? {
          w.Invariant();
          OutboxIsHealthy(w.sys);
          assert false;
        }
        r := FinishTrafficIsolation();
        return;
      }
      if outbox.value.pending.None? {
        return Done;
      }
      r := SendUnmarked();
    }

    /** Its loop, for a batch without a marker. */
    method SendUnmarked() returns (r: Outcome)
      requires Coupled() && RetriesCounted() && Pending() && !draining && outbox.value.resolution.None?
      modifies this`outbox, this`unsynced, this`recovered, this`committed, this`lastTrafficUid, this`reported,
               this`unconfirmed, w`sys, w`run, w`tick, w`faults, w`setbacks, w`exhausted, w`responses,
               w`eligible, w`revoked
      ensures Coupled() && RetriesCounted() && Queued() == old(Queued())
      ensures Sends(w.run) <= Sends(old(w.run)) + 2
      ensures w.setbacks >= old(w.setbacks) && unconfirmed >= old(unconfirmed)
      ensures |w.responses| >= |old(w.responses)| && w.responses[..|old(w.responses)|] == old(w.responses)
      ensures reported == old(reported) + if r.Done? then [old(outbox).value.pending.value.rows] else []
      ensures r.Done? ==>
                && Loaded() && outbox.value.pending.None? && outbox.value.buffered == old(outbox).value.buffered
                && lastTrafficUid == LastUid(old(outbox).value.pending.value.rows)
      ensures !r.Done? ==> Hindered()
      ensures w.setbacks == old(w.setbacks) && !old(AtLastSequence()) ==>
                Followed(w.responses[|old(w.responses)|..], old(outbox).value, old(committed), r, outbox)
    {
      ghost var o, n, m := outbox.value, |w.responses|, committed;
      var attempt := 0;
      while true
        invariant 0 <= attempt <= 1 && Sends(w.run) == Sends(old(w.run)) + attempt
        invariant Coupled() && RetriesCounted() && Pending() && Queued() == old(Queued())
        invariant w.setbacks == old(w.setbacks) && unconfirmed == old(unconfirmed) + attempt
        invariant |w.responses| == n + attempt && w.responses[..n] == old(w.responses)
        invariant reported == old(reported) && committed == m
        invariant attempt == 0 ==> outbox == old(outbox)
        invariant attempt == 1 ==> Rebased(w.responses[n], o, m, outbox)
        decreases 2 - attempt
      {
        ghost var before, was := w.responses, outbox.value;
        var done;
        r, done := TryOnce(attempt);
        assert w.responses[..n] == before[..n] && (attempt == 1 ==> w.responses[n] == before[n]);
        if done {
          if w.setbacks == old(w.setbacks) && !old(AtLastSequence()) {
            FollowsFrom(w.responses[n..], attempt, o, was, m, r, outbox);
          }
          return;
        }
        attempt := attempt + 1;
      }
    }

    /** One pass of the loop: a POST, and what follows from the answer. */
    method TryOnce(attempt: nat) returns (r: Outcome, done: bool)
      requires Coupled() && RetriesCounted() && Pending() && !draining && outbox.value.resolution.None?
      modifies this`outbox, this`unsynced, this`recovered, this`committed, this`lastTrafficUid, this`reported,
               this`unconfirmed, w`sys, w`run, w`tick, w`faults, w`setbacks, w`exhausted, w`responses,
               w`eligible, w`revoked
      ensures Coupled() && RetriesCounted() && Queued() == old(Queued()) && Onward()
      ensures Sends(w.run) == Sends(old(w.run)) + 1
      ensures |w.responses| == |old(w.responses)| + 1 && w.responses[..|old(w.responses)|] == old(w.responses)
      ensures reported == old(reported) + if done && r.Done? then [old(outbox).value.pending.value.rows] else []
      ensures done ==>
                if r.Done?
                then && Loaded() && outbox.value.pending.None? && outbox.value.buffered == old(outbox).value.buffered
                     && lastTrafficUid == LastUid(old(outbox).value.pending.value.rows)
                else Hindered()
      ensures w.setbacks == old(w.setbacks) && !old(AtLastSequence()) ==>
                ResolvedBy(w.responses[|old(w.responses)|], attempt, old(outbox).value, old(committed), r, done, outbox)
      ensures !done ==>
                && w.setbacks == old(w.setbacks) && unconfirmed == old(unconfirmed) + 1 && Pending()
                && committed == old(committed)
                && attempt == 0 && Rebased(w.responses[|old(w.responses)|], old(outbox).value, committed, outbox)
    {
      r := SendPendingOnce();
      if !r.Unconfirmed? {
        return r, true;
      }
      r, done := AfterUnconfirmed(r.conflict, attempt);
    }

    /** The rest of the loop body of sendPending, behind an unconfirmed POST: count it durably, then
        isolate, give up for this round, or rebase for the second attempt. */
    method AfterUnconfirmed(conflict: Option<Reply>, attempt: nat) returns (r: Outcome, done: bool)
      requires Coupled() && Pending() && !draining && outbox.value.resolution.None? && w.sys.posted
      requires !Faulted() ==> Tries() == outbox.value.failures + 1 <= 3
      requires conflict.Some? ==> conflict.value in w.sys.replies && conflict.value.Conflict?
      modifies this`outbox, this`unsynced, this`recovered, this`committed, this`lastTrafficUid, this`reported,
               w`sys, w`run, w`tick, w`faults, w`setbacks, w`eligible, w`revoked
      ensures w.faults >= old(w.faults)
      ensures Coupled() && RetriesCounted() && Queued() == old(Queued()) && Sends(w.run) == Sends(old(w.run))
      ensures w.setbacks >= old(w.setbacks) && (r.Fault? ==> w.setbacks > old(w.setbacks))
      ensures reported == old(reported) + if done && r.Done? then [old(outbox).value.pending.value.rows] else []
      ensures done && r.Done? ==>
                && Loaded() && outbox.value.pending.None? && outbox.value.buffered == old(outbox).value.buffered
                && lastTrafficUid == LastUid(old(outbox).value.pending.value.rows)
      ensures w.setbacks == old(w.setbacks) ==>
                Resolved(conflict, attempt, old(outbox).value, old(committed), r, done, outbox)
      ensures !done ==> w.setbacks == old(w.setbacks) && Pending() && committed == old(committed)
    {
      var ok := SaveFailure();
      if !ok {
        return Fault, true;
      }
      r, done := IsolateOrRebase(conflict, attempt);
    }

    /** The decision, once the failure is counted. */
    method IsolateOrRebase(conflict: Option<Reply>, attempt: nat) returns (r: Outcome, done: bool)
      requires Coupled() && Pending() && !draining && outbox.value.resolution.None?
      requires !Faulted() ==> Tries() == outbox.value.failures <= 3
      requires conflict.Some? ==> conflict.value in w.sys.replies && conflict.value.Conflict?
      modifies this`outbox, this`unsynced, this`recovered, this`committed, this`lastTrafficUid, this`reported,
               w`sys, w`run, w`tick, w`faults, w`setbacks, w`eligible, w`revoked
      ensures w.faults >= old(w.faults)
      ensures Coupled() && RetriesCounted() && Queued() == old(Queued()) && Sends(w.run) == Sends(old(w.run))
      ensures w.setbacks >= old(w.setbacks) && (r.Fault? ==> w.setbacks > old(w.setbacks))
      ensures reported == old(reported) + if done && r.Done? then [old(outbox).value.pending.value.rows] else []
      ensures done && r.Done? ==>
                && Loaded() && outbox.value.pending.None? && outbox.value.buffered == old(outbox).value.buffered
                && lastTrafficUid == LastUid(old(outbox).value.pending.value.rows)
      ensures w.setbacks == old(w.setbacks) ==>
                Chosen(conflict, attempt, old(outbox).value, old(outbox).value.failures, old(committed), r, done,
                  outbox)
      ensures !done ==> w.setbacks == old(w.setbacks) && Pending() && committed == old(committed)
    {
      if conflict.Some? && CanIsolate(conflict.value, outbox.value.pending.value) {
        r := IsolateTraffic(conflict.value.next, conflict);
        return r, true;
      }
      if outbox.value.failures >= 3 {
        r := IsolateAtCursor();
        return r, true;
      }
      if attempt != 0 || conflict.None? {
        return Unconfirmed(conflict), true;
      }
      var ok := RebaseTrafficConflict(conflict.value);
      return Unconfirmed(conflict), !ok;
    }

    /** After three failures: at the cursor that the panel reports. */
    method IsolateAtCursor() returns (r: Outcome)
      requires Coupled() && Pending() && !draining && outbox.value.resolution.None? && outbox.value.failures >= 3
      modifies this`outbox, this`unsynced, this`recovered, this`committed, this`lastTrafficUid, this`reported,
               w`sys, w`run, w`tick, w`faults, w`setbacks, w`eligible, w`revoked
      ensures w.faults >= old(w.faults)
      ensures Coupled() && Queued() == old(Queued()) && Sends(w.run) == Sends(old(w.run))
      ensures w.setbacks >= old(w.setbacks) + if r.Done? then 0 else 1
      ensures r.Done? ==>
                && Loaded() && outbox.value.pending.None? && outbox.value.next > |old(w.sys).log|
                && outbox.value.buffered == old(outbox).value.buffered
                && lastTrafficUid == LastUid(old(outbox).value.pending.value.rows)
      ensures reported == old(reported) + if r.Done? then [old(outbox).value.pending.value.rows] else []
      ensures !r.Unconfirmed? && (r.Fault? ==> Faulted() || (Pending() && outbox.value.resolution.Some?))
    {
      var cursor := ReadTrafficCursor();
      if cursor.None? {
        return Fault;
      }
      r := IsolateTraffic(cursor.value, None);
    }

    /** The durable failure count, up to three. */
    method SaveFailure() returns (ok: bool)
      requires Coupled() && Pending() && !draining && outbox.value.resolution.None? && w.sys.posted
      modifies this`outbox, this`unsynced, this`recovered, this`committed, w`sys, w`run, w`tick, w`faults,
               w`setbacks
      ensures Coupled() && Queued() == old(Queued()) && w.Steady() && Sends(w.run) == Sends(old(w.run))
      ensures w.faults == old(w.faults) + if ok then 0 else 1
      ensures w.setbacks == old(w.setbacks) + if ok then 0 else 1
      ensures recovered == old(recovered) && committed == old(committed)
      ensures !ok ==> outbox == old(outbox)
      ensures ok ==>
                && Loaded() && outbox.value.next == old(outbox).value.next
                && Retained(outbox, old(outbox).value, old(outbox).value.pending.value.sequence,
                  Raised(old(outbox).value.failures))
    {
      var failures := if outbox.value.failures + 1 < 3 then outbox.value.failures + 1 else 3;
      ok := SaveReportState(outbox.value.(failures := failures), CountFailure);
    }

    // ---- a reporting round ----

    /** A round that started from the state `from` and read `captured` from the counters has reported
        exactly what is due, in order, up to the limit. */
    twostate predicate RoundReported(from: ReportState, captured: seq<Row>, sent: seq<seq<Row>>, batches: nat)
      reads this, w
    {
      && Loaded() && outbox.value.pending.None? && Sent(sent)
      && IsRound(from, captured, old(lastTrafficUid), batches, sent, outbox.value.buffered)
      && w.captures == old(w.captures) + if ReadsCounters(Early(from), batches) then [captured] else []
    }

    /** These batches have left the outbox. */
    twostate predicate Sent(batches: seq<seq<Row>>)
      reads this
    {
      reported == old(reported) + batches && lastTrafficUid == UidAfter(batches, old(lastTrafficUid))
    }

    /** Nothing that has failed is forgotten. */
    twostate predicate Onward()
      reads this, w
    {
      w.setbacks >= old(w.setbacks) && unconfirmed >= old(unconfirmed)
    }

    /** Something that the client does not control has failed, or a POST was not confirmed, or there is no
        next sequence. */
    twostate predicate Hindered()
      reads this, w
    {
      w.setbacks > old(w.setbacks) || unconfirmed > old(unconfirmed) || AtLastSequence()
    }

    /** What a round needs to know of sendPending. */
    method Deliver() returns (ok: bool)
      requires Coupled() && RetriesCounted() && Loaded() && !draining
      modifies this`outbox, this`unsynced, this`recovered, this`committed, this`lastTrafficUid, this`reported,
               this`unconfirmed, w`sys, w`run, w`tick, w`faults, w`setbacks, w`exhausted, w`responses,
               w`eligible, w`revoked
      ensures Coupled() && RetriesCounted() && Queued() == old(Queued()) && Onward()
      ensures Sends(w.run) <= Sends(old(w.run)) + if old(Pending()) then 2 else 0
      ensures if ok then Loaded() && outbox.value.pending.None? else Hindered() && reported == old(reported)
      ensures ok && old(Pending()) ==>
                && outbox.value.buffered == old(outbox).value.buffered
                && reported == old(reported) + [old(outbox).value.pending.value.rows]
                && lastTrafficUid == LastUid(old(outbox).value.pending.value.rows)
      ensures !old(Pending()) ==>
                ok && outbox == old(outbox) && reported == old(reported) && lastTrafficUid == old(lastTrafficUid)
    {
      var r := SendPending();
      ok := r.Done?;
    }

    /** FlushTrafficLimit: replay what is pending, then the shutdown buffer, then the counters. */
    method FlushTrafficLimit(batches: nat) returns (ok: bool, ghost from: ReportState, ghost captured: seq<Row>,
                                              ghost sent: seq<seq<Row>>)
      requires Valid()
      modifies this, w
      ensures Valid() && draining == old(draining)
      ensures old(draining) ==> !ok && outbox == old(outbox) && w.run == old(w.run)
      ensures ok ==> RoundReported(from, captured, sent, batches)
      ensures ok ==> if old(Expected()).Some? then Some(from) == old(Expected()) else StartsAt(from, |old(w.sys).log|)
      ensures !ok && !old(draining) ==> Hindered()
      ensures batches > 0 ==>
                Sends(w.run) <= Sends(old(w.run)) + 2 * batches && |reported| <= |old(reported)| + batches
    {
      from, captured, sent := NO_STATE, [], [];
      if draining {
        return false, NO_STATE, [], [];
      }
      ok, from, captured, sent := Round(batches);
      w.EndRound();
    }

    method Round(batches: nat) returns (ok: bool, ghost from: ReportState, ghost captured: seq<Row>,
                                              ghost sent: seq<seq<Row>>)
      requires Valid() && !draining
      modifies this`outbox, this`unsynced, this`recovered, this`committed, this`lastTrafficUid, this`reported,
               this`unconfirmed, this`since, w`sys, w`run, w`tick, w`faults, w`setbacks, w`exhausted,
               w`responses, w`eligible, w`revoked, w`captures
      ensures Coupled() && RetriesCounted()
      ensures ok ==> RoundReported(from, captured, sent, batches)
      ensures ok ==> if old(Expected()).Some? then Some(from) == old(Expected()) else StartsAt(from, |old(w.sys).log|)
      ensures !ok ==> Hindered()
      ensures batches > 0 ==>
                Sends(w.run) <= Sends(old(w.run)) + 2 * batches && |reported| <= |old(reported)| + batches
    {
      from, captured, sent := NO_STATE, [], [];
      ok := LoadReportState();
      if ok {
        from := outbox.value;
        ok, captured, sent := SendAll(batches);
      }
    }

    /** What is pending, and then the rest. */
    method SendAll(batches: nat) returns (ok: bool, ghost captured: seq<Row>, ghost sent: seq<seq<Row>>)
      requires Coupled() && RetriesCounted() && Loaded() && !draining && Queued() == []
      modifies this`outbox, this`unsynced, this`recovered, this`committed, this`lastTrafficUid, this`reported,
               this`unconfirmed, this`since, w`sys, w`run, w`tick, w`faults, w`setbacks, w`exhausted,
               w`responses, w`eligible, w`revoked, w`captures
      ensures Coupled() && RetriesCounted()
      ensures ok ==> RoundReported(old(outbox).value, captured, sent, batches)
      ensures Onward() && (!ok ==> Hindered())
      ensures batches > 0 ==>
                Sends(w.run) <= Sends(old(w.run)) + 2 * batches && |reported| <= |old(reported)| + batches
    {
      captured, sent := [], [];
      ghost var from, before, last := outbox.value, reported, lastTrafficUid;
      var hadPending := outbox.value.pending.Some?;
      ok := Deliver();
      if !ok {
        return;
      }
      if hadPending {
        ok, captured, sent := SendBehind(from, before, last, batches);
      } else {
        ok, captured, sent := SendRest(batches);
      }
    }

    /** What comes behind the pending batch of `from`, which counts as one. `before` and `last` are what was
        reported, and who was reported last, before that batch. */
    method SendBehind(ghost from: ReportState, ghost before: seq<seq<Row>>, ghost last: int, batches: nat)
        returns (ok: bool, ghost captured: seq<Row>, ghost sent: seq<seq<Row>>)
      requires Coupled() && RetriesCounted() && Loaded() && outbox.value.pending.None? && !draining && Queued() == []
      requires from.pending.Some? && from.buffered == outbox.value.buffered
      requires lastTrafficUid == LastUid(from.pending.value.rows) && reported == before + [from.pending.value.rows]
      modifies this`outbox, this`unsynced, this`recovered, this`committed, this`lastTrafficUid, this`reported,
               this`unconfirmed, this`since, w`sys, w`run, w`tick, w`faults, w`setbacks, w`exhausted,
               w`responses, w`eligible, w`revoked, w`captures
      ensures Coupled() && RetriesCounted()
      ensures ok ==>
                && Loaded() && outbox.value.pending.None?
                && reported == before + sent && lastTrafficUid == UidAfter(sent, last)
                && IsRound(from, captured, last, batches, sent, outbox.value.buffered)
                && w.captures == old(w.captures) + if ReadsCounters(Early(from), batches) then [captured] else []
      ensures Onward() && (!ok ==> Hindered())
      ensures batches > 0 ==>
                Sends(w.run) <= Sends(old(w.run)) + 2 * (batches - 1) && |reported| <= |old(reported)| + batches - 1
    {
      captured, sent := [], [];
      ghost var rows, uid := from.pending.value.rows, lastTrafficUid;
      var left := batches;
      if left > 0 {
        left := left - 1;
        if left == 0 {
          PendingOnly(from, last);
          return true, [], [rows];
        }
      }
      SameEarly(from.(pending := None), outbox.value);
      ok, captured, sent := SendRest(left);
      if ok {
        PendingFirst(from, captured, uid, batches, sent, outbox.value.buffered);
        BehindPending(before, from, captured, last, batches, sent, outbox.value.buffered);
        sent := [rows] + sent;
      }
    }

    /** The buffer, and then the counters. */
    method SendRest(batches: nat) returns (ok: bool, ghost captured: seq<Row>, ghost sent: seq<seq<Row>>)
      requires Coupled() && RetriesCounted() && Loaded() && outbox.value.pending.None? && !draining && Queued() == []
      modifies this`outbox, this`unsynced, this`recovered, this`committed, this`lastTrafficUid, this`reported,
               this`unconfirmed, this`since, w`sys, w`run, w`tick, w`faults, w`setbacks, w`exhausted,
               w`responses, w`eligible, w`revoked, w`captures
      ensures Coupled() && RetriesCounted()
      ensures ok ==> RoundReported(old(outbox).value, captured, sent, batches)
      ensures Onward() && (!ok ==> Hindered())
      ensures batches > 0 ==>
                Sends(w.run) <= Sends(old(w.run)) + 2 * batches && |reported| <= |old(reported)| + batches
    {
      captured, sent := [], [];
      ghost var from, last := outbox.value, lastTrafficUid;
      var left;
      ok, left := SendBuffered(batches);
      if !ok {
        return;
      }
      if batches > 0 && left == 0 {
        sent := Limited(Batches(from.buffered), batches);
        StopsEarly(from, last, batches, sent, outbox.value.buffered);
        return;
      }
      ok, captured, sent := SendBehindBuffer(from, old(reported), last, left, batches);
    }

    /** The counters, behind the buffer of `from`. `before` and `last` are what was reported, and who was
        reported last, before that buffer. */
    method SendBehindBuffer(ghost from: ReportState, ghost before: seq<seq<Row>>, ghost last: int, left: nat,
                            ghost batches: nat)
        returns (ok: bool, ghost captured: seq<Row>, ghost sent: seq<seq<Row>>)
      requires Coupled() && RetriesCounted() && Loaded() && !draining && Queued() == []
      requires outbox.value.pending.None? && outbox.value.buffered == [] && from.pending.None?
      requires reported == before + Batches(from.buffered) && lastTrafficUid == UidAfter(Batches(from.buffered), last)
      requires ReadsCounters(Batches(from.buffered), batches)
      requires left == if batches == 0 then 0 else batches - |Batches(from.buffered)|
      modifies this`outbox, this`unsynced, this`recovered, this`committed, this`lastTrafficUid, this`reported,
               this`unconfirmed, this`since, w`sys, w`run, w`tick, w`faults, w`setbacks, w`exhausted,
               w`responses, w`eligible, w`revoked, w`captures
      ensures Coupled() && RetriesCounted()
      ensures ok ==>
                && Loaded() && outbox.value.pending.None?
                && reported == before + sent && lastTrafficUid == UidAfter(sent, last)
                && IsRound(from, captured, last, batches, sent, outbox.value.buffered)
                && ReadsCounters(Early(from), batches) && w.captures == old(w.captures) + [captured]
      ensures Onward() && (!ok ==> Hindered())
      ensures left > 0 ==>
                Sends(w.run) <= Sends(old(w.run)) + 2 * left && |reported| <= |old(reported)| + left
    {
      sent := [];
      ok, captured := SendCounters(left);
      if ok {
        sent := InTurn(before, from, captured, last, batches, reported);
      }
    }

    /** The loop over the shutdown buffer. Its bytes came from an earlier, quiesced runtime. */
    method SendBuffered(batches: nat) returns (ok: bool, left: nat)
      requires Coupled() && RetriesCounted() && Loaded() && outbox.value.pending.None? && !draining && Queued() == []
      modifies this`outbox, this`unsynced, this`recovered, this`committed, this`lastTrafficUid, this`reported,
               this`unconfirmed, this`since, w`sys, w`run, w`tick, w`faults, w`setbacks, w`exhausted,
               w`responses, w`eligible, w`revoked
      ensures Coupled() && RetriesCounted() && Queued() == []
      ensures Onward() && (!ok ==> Hindered())
      ensures left <= batches
      ensures ok ==>
                var due := Batches(old(outbox).value.buffered);
                var sent := Limited(due, batches);
                && Loaded() && outbox.value.pending.None? && Batches(outbox.value.buffered) == due[|sent|..]
                && Sent(sent) && left == if batches == 0 then 0 else batches - |sent|
      ensures batches > 0 ==>
                var used := if ok then batches - left else batches;
                Sends(w.run) <= Sends(old(w.run)) + 2 * used && |reported| <= |old(reported)| + used
    {
      ghost var due, sent := Batches(outbox.value.buffered), [];
      left := batches;
      while |outbox.value.buffered| > 0
        invariant Coupled() && RetriesCounted() && Loaded() && outbox.value.pending.None? && Queued() == []
        invariant Onward()
        invariant Underway(due, sent, outbox.value.buffered, batches, left) && Sent(sent)
        invariant batches > 0 ==> Sends(w.run) <= Sends(old(w.run)) + 2 * |sent|
        decreases |outbox.value.buffered|
      {
        OneMoreSent(due, sent, outbox.value.buffered, batches, left);
        ghost var next := Pick(outbox.value.buffered).selected;
        ok := SendNextBuffered();
        if !ok {
          return;
        }
        sent := sent + [next];
        if left > 0 {
          left := left - 1;
          if left == 0 {
            return;
          }
        }
      }
      AllSent(due, sent, batches, left);
      ok := true;
    }

    method SendNextBuffered() returns (ok: bool)
      requires Coupled() && RetriesCounted() && Loaded() && outbox.value.pending.None? && !draining && Queued() == []
      requires outbox.value.buffered != []
      modifies this`outbox, this`unsynced, this`recovered, this`committed, this`lastTrafficUid, this`reported,
               this`unconfirmed, this`since, w`sys, w`run, w`tick, w`faults, w`setbacks, w`exhausted,
               w`responses, w`eligible, w`revoked
      ensures Coupled() && RetriesCounted() && Queued() == []
      ensures Onward() && (!ok ==> Hindered())
      ensures ok ==>
                var p := Pick(old(outbox).value.buffered);
                && Loaded() && outbox.value.pending.None? && outbox.value.buffered == p.rest
                && |p.rest| < |old(outbox).value.buffered|
                && reported == old(reported) + [p.selected] && lastTrafficUid == LastUid(p.selected)
      ensures Sends(w.run) <= Sends(old(w.run)) + 2 && |reported| <= |old(reported)| + 1
    {
      PickSizes(outbox.value.buffered);
      ok := FormFromBuffer();
      if ok {
        ok := Deliver();
      }
    }

    /** The next batch out of the buffer, made durable. */
    method FormFromBuffer() returns (ok: bool)
      requires Coupled() && RetriesCounted() && Loaded() && outbox.value.pending.None? && !draining && Queued() == []
      requires outbox.value.buffered != []
      modifies this`outbox, this`unsynced, this`recovered, this`committed, this`since, w`sys, w`run, w`tick,
               w`faults, w`setbacks
      ensures Coupled() && RetriesCounted() && Queued() == [] && w.Steady()
      ensures Sends(w.run) == Sends(old(w.run)) && w.setbacks == old(w.setbacks) + if ok then 0 else 1
      ensures ok ==>
                var p := Pick(old(outbox).value.buffered);
                Pending() && outbox.value.pending.value.rows == p.selected && outbox.value.buffered == p.rest
    {
      BufferIsValid();
      var picked := SelectTrafficBatch(outbox.value.buffered);
      if picked.None? {
        assert false;
      }
      w.TakeBuffer();
      recovered := true;
      NextFromBuffer(w.sys, w.sys.client.value);
      ok := SaveBatch(picked.value.selected, picked.value.rest, FromBuffer);
    }

    lemma BufferIsValid()
      requires Coupled() && Loaded()
      ensures ValidRows(outbox.value.buffered)
    {
      w.Invariant();
      OutboxIsHealthy(w.sys);
    }

    /** Save the state with a new pending batch, under the next sequence. */
    method SaveBatch(rows: seq<Row>, buffered: seq<Row>, change: Change) returns (ok: bool)
      requires Coupled() && RetriesCounted() && Loaded() && CanChange(w.sys, w.sys.client.value, change)
      requires NextState(w.sys.client.value, change, |w.sys.issued|)
            == WithBatch(outbox.value, Batch(outbox.value.next, rows, |w.sys.issued|), buffered)
      modifies this`outbox, this`unsynced, this`recovered, this`committed, this`since, w`sys, w`run, w`tick,
               w`faults, w`setbacks
      ensures Coupled() && RetriesCounted() && Sends(w.run) == Sends(old(w.run)) && w.Steady()
      ensures w.setbacks == old(w.setbacks) + if ok then 0 else 1
      ensures ok ==> Pending() && outbox.value.pending.value.rows == rows && outbox.value.buffered == buffered
                     && outbox.value.pending.value.sequence == old(outbox).value.next
      ensures Queued() == old(Queued()) || (change.FromCounters? && Queued() == Pick(old(Queued())).rest)
      ensures ok && change.FromCounters? ==> Queued() == Pick(old(Queued())).rest
    {
      var batch := Batch(outbox.value.next, rows, |w.sys.issued|);
      ok := SaveReportState(WithBatch(outbox.value, batch, buffered), change);
      if ok {
        since := Some(Formed(w.faults, unconfirmed));
      }
    }

    /** The capture and the loop over its rows. */
    method SendCounters(batches: nat) returns (ok: bool, ghost captured: seq<Row>)
      requires Coupled() && RetriesCounted() && Loaded() && !draining && Queued() == []
      requires outbox.value.pending.None? && outbox.value.buffered == []
      modifies this`outbox, this`unsynced, this`recovered, this`committed, this`lastTrafficUid, this`reported,
               this`unconfirmed, this`since, w`sys, w`run, w`tick, w`faults, w`setbacks, w`exhausted,
               w`responses, w`eligible, w`revoked, w`captures
      ensures Coupled() && RetriesCounted()
      ensures Onward() && (!ok ==> Hindered())
      ensures ok ==>
                var sent := Limited(Batches(Fairness.Queue(captured, old(lastTrafficUid))), batches);
                && Loaded() && outbox.value.pending.None? && outbox.value.buffered == []
                && Sent(sent) && w.captures == old(w.captures) + [captured]
      ensures batches > 0 ==>
                Sends(w.run) <= Sends(old(w.run)) + 2 * batches && |reported| <= |old(reported)| + batches
    {
      var rows := CaptureQueue();
      if rows.None? {
        return false, [];
      }
      captured := rows.value;
      ok := SendQueue(Fairness.Queue(rows.value, lastTrafficUid), batches);
    }

    /** The loop over the captured rows. */
    method SendQueue(captured: seq<Row>, batches: nat) returns (ok: bool)
      requires Coupled() && RetriesCounted() && Loaded() && !draining && Queued() == captured && ValidRows(captured)
      requires outbox.value.pending.None? && outbox.value.buffered == []
      modifies this`outbox, this`unsynced, this`recovered, this`committed, this`lastTrafficUid, this`reported,
               this`unconfirmed, this`since, w`sys, w`run, w`tick, w`faults, w`setbacks, w`exhausted,
               w`responses, w`eligible, w`revoked
      ensures Coupled() && RetriesCounted()
      ensures Onward() && (!ok ==> Hindered())
      ensures ok ==>
                var sent := Limited(Batches(captured), batches);
                && Loaded() && outbox.value.pending.None? && outbox.value.buffered == []
                && Sent(sent)
      ensures batches > 0 ==>
                Sends(w.run) <= Sends(old(w.run)) + 2 * batches && |reported| <= |old(reported)| + batches
    {
      ghost var due, sent := Batches(captured), [];
      var queued := captured;
      var left := batches;
      while |queued| > 0
        invariant Coupled() && RetriesCounted() && Loaded() && Queued() == queued && ValidRows(queued)
        invariant outbox.value.pending.None? && outbox.value.buffered == []
        invariant Onward()
        invariant Underway(due, sent, queued, batches, left) && Sent(sent)
        invariant batches > 0 ==> Sends(w.run) <= Sends(old(w.run)) + 2 * |sent|
        decreases |queued|
      {
        OneMoreSent(due, sent, queued, batches, left);
        ghost var next := Pick(queued).selected;
        ok, queued := SendNextQueued(queued);
        if !ok {
          return;
        }
        sent := sent + [next];
        if left > 0 {
          left := left - 1;
          if left == 0 {
            return;
          }
        }
      }
      AllSent(due, sent, batches, left);
      ok := true;
    }

    /** The capture, sorted by user and rotated past the user reported last. */
    method CaptureQueue() returns (rows: Option<seq<Row>>)
      requires Coupled() && Loaded() && !draining && Queued() == []
      requires outbox.value.pending.None? && outbox.value.buffered == []
      modifies w`sys, w`run, w`tick, w`setbacks, w`captures
      ensures Coupled() && Sends(w.run) == Sends(old(w.run))
      ensures w.setbacks == old(w.setbacks) + if rows.Some? then 0 else 1
      ensures Queued() == (if rows.Some? then Fairness.Queue(rows.value, lastTrafficUid) else []) && ValidRows(Queued())
      ensures rows.Some? ==> w.captures == old(w.captures) + [rows.value]
    {
      rows := w.ReadCounters(false);
      if rows.Some? {
        var queued := Fairness.Queue(rows.value, lastTrafficUid);
        QueueKeepsRows(rows.value, lastTrafficUid);
        CoveredPermutation(w.sys.ram, rows.value, queued);
        w.Capture(queued);
      }
    }

    /** One pass of that loop, from the check of the context on. */
    method SendNextQueued(queued: seq<Row>) returns (ok: bool, rest: seq<Row>)
      requires Coupled() && RetriesCounted() && Loaded() && !draining && queued != [] && Queued() == queued
      requires outbox.value.pending.None? && outbox.value.buffered == [] && ValidRows(queued)
      modifies this`outbox, this`unsynced, this`recovered, this`committed, this`lastTrafficUid, this`reported,
               this`unconfirmed, this`since, w`sys, w`run, w`tick, w`faults, w`setbacks, w`exhausted,
               w`responses, w`eligible, w`revoked
      ensures Coupled() && RetriesCounted()
      ensures Onward() && (!ok ==> Hindered())
      ensures ok ==>
                && Loaded() && outbox.value.pending.None? && outbox.value.buffered == []
                && rest == Pick(queued).rest && Queued() == rest && |rest| < |queued| && ValidRows(rest)
                && lastTrafficUid == LastUid(Pick(queued).selected)
                && reported == old(reported) + [Pick(queued).selected]
      ensures Sends(w.run) <= Sends(old(w.run)) + 2 && |reported| <= |old(reported)| + 1
    {
      rest := [];
      ok := w.Attempt();
      if !ok {
        return;
      }
      ok, rest := FormFromCounters(queued);
      if ok {
        ok := Deliver();
      }
    }

    /** The next batch out of the captured rows, made durable. */
    method FormFromCounters(queued: seq<Row>) returns (ok: bool, rest: seq<Row>)
      requires Coupled() && RetriesCounted() && Loaded() && !draining && queued != [] && Queued() == queued
      requires outbox.value.pending.None? && outbox.value.buffered == [] && ValidRows(queued)
      modifies this`outbox, this`unsynced, this`recovered, this`committed, this`since, w`sys, w`run, w`tick,
               w`faults, w`setbacks
      ensures Coupled() && RetriesCounted() && Sends(w.run) == Sends(old(w.run))
      ensures w.setbacks == old(w.setbacks) + if ok then 0 else 1
      ensures rest == Pick(queued).rest && |rest| < |queued| && ValidRows(rest)
      ensures ok ==> Pending() && outbox.value.pending.value.rows == Pick(queued).selected
                     && outbox.value.buffered == [] && Queued() == rest
    {
      PickSizes(queued);
      PickMembers(queued);
      var picked := SelectTrafficBatch(queued);
      if picked.None? {
        assert false;
      }
      rest := picked.value.rest;
      NextFromCounters(w.sys, w.sys.client.value);
      ok := SaveBatch(picked.value.selected, [], FromCounters);
    }

    // ---- shutdown ----

    /** PersistTraffic, called after forwarding and reporting have stopped. On success the durable
        file accounts for every byte exactly once; a retry after any failure gives the same result. */
    method PersistTraffic() returns (ok: bool)
      requires Valid() && w.quiesced
      modifies this`outbox, this`unsynced, this`recovered, this`committed, this`draining, this`drainSaved,
               this`drainBase, this`since, w`sys, w`run, w`tick, w`faults, w`setbacks, w`captures
      ensures Valid() && w.sys.ram == old(w.sys.ram)
      ensures ok ==> drainSaved && Conserved()
      ensures ok && old(Expected()).Some? ==> OnlyBufferChanged(outbox.value, old(Expected()).value)
      ensures !ok ==> w.setbacks > old(w.setbacks) || TooMany()
      ensures old(draining) ==> draining && drainBase == old(drainBase)
      ensures !old(draining) && draining && old(outbox.Some? || unsynced.Some?) ==>
                drainBase == old(if unsynced.Some? then unsynced else outbox).value.buffered
    {
      ok := LoadReportState();
      if !ok {
        return;
      }
      if drainSaved {
        return true;
      }
      if !draining {
        BeginDrain();
      }
      ok := SaveFinalCounters();
    }

    /** The base is kept for every retry. */
    method BeginDrain()
      requires Valid() && w.quiesced && Loaded() && !draining
      modifies this`draining, this`drainBase, w`sys, w`run
      ensures Valid() && w.sys.ram == old(w.sys.ram) && draining && drainBase == outbox.value.buffered
    {
      w.StartDrain();
      draining, drainBase := true, outbox.value.buffered;
    }

    /** There is a capture that does not fit into the file. */
    ghost predicate TooMany()
      reads this, w
    {
      Loaded() && exists rows ::
        CompleteCapture(w.sys.ram, rows) && |drainBase + Tail(rows, Live())| > MAX_BUFFERED_ROWS
    }

    /** The pending rows whose bytes are still in this runtime's counters. */
    ghost function Live(): seq<Row>
      requires Loaded()
      reads this
    {
      if outbox.value.pending.Some? && !committed && !recovered then outbox.value.pending.value.rows else []
    }

    /** Read the final counters and take the pending overlap out. "Inconsistent final counters"
        cannot happen. */
    method ReadFinalCounters() returns (rows: Option<seq<Row>>, tail: seq<Row>)
      requires Coupled() && Queued() == [] && w.quiesced && Loaded()
      modifies w`sys, w`run, w`tick, w`setbacks, w`captures
      ensures Coupled() && Queued() == [] && w.sys.ram == old(w.sys.ram)
      ensures w.setbacks == old(w.setbacks) + if rows.Some? then 0 else 1
      ensures rows.Some? ==>
                && ValidCounters(w.sys.ram) && "" !in w.sys.ram
                && CompleteCapture(w.sys.ram, rows.value) && Covered(w.sys.ram, Live())
                && ConsistentTail(rows.value, Live()) && tail == Tail(rows.value, Live())
    {
      tail := [];
      rows := w.ReadCounters(true);
      if rows.None? {
        return;
      }
      w.Invariant();
      var isLive := outbox.value.pending.Some? && !committed && !recovered;
      var live := if isLive then outbox.value.pending.value.rows else [];
      assert live == LiveRows(w.sys.client.value) && live == Live();
      FinalCaptureFits(w.sys, w.sys.client.value, rows.value);
      var t := FinalTail(rows.value, live);
      tail := t.value;
    }

    method SaveFinalCounters() returns (ok: bool)
      requires Valid() && w.quiesced && Loaded() && draining && !drainSaved
      modifies this`outbox, this`unsynced, this`recovered, this`committed, this`drainSaved, w`sys, w`run,
               w`tick, w`faults, w`setbacks, w`captures
      ensures Valid() && w.sys.ram == old(w.sys.ram)
      ensures ok ==> drainSaved && OnlyBufferChanged(outbox.value, old(outbox).value)
      ensures !ok ==> w.setbacks > old(w.setbacks) || TooMany()
    {
      var rows, tail := ReadFinalCounters();
      if rows.None? || |drainBase + tail| > MAX_BUFFERED_ROWS {
        return false;
      }
      ok := SaveTail(rows.value, tail);
      if ok {
        FinishDrain(rows.value, tail);
      }
    }

    method FinishDrain(rows: seq<Row>, tail: seq<Row>)
      requires Coupled() && RetriesCounted() && Queued() == [] && w.quiesced && Loaded() && draining
      requires ValidCounters(w.sys.ram) && "" !in w.sys.ram && CompleteCapture(w.sys.ram, rows)
               && Covered(w.sys.ram, Live())
      requires tail == Tail(rows, Live()) && outbox.value.buffered == drainBase + tail
      requires w.sys.durable == Some(Erase(outbox.value))
      modifies this`drainSaved, w`sys, w`run
      ensures Valid() && drainSaved && w.sys.ram == old(w.sys.ram)
    {
      w.DrainDone();
      drainSaved := true;
      DrainBalances(w.sys.ram, rows, tail);
    }

    method SaveTail(rows: seq<Row>, tail: seq<Row>) returns (ok: bool)
      requires Coupled() && Queued() == [] && Loaded() && draining && RetriesCounted()
               && CompleteCapture(w.sys.ram, rows)
      requires ConsistentTail(rows, Live()) && tail == Tail(rows, Live()) && |drainBase + tail| <= MAX_BUFFERED_ROWS
      modifies this`outbox, this`unsynced, this`recovered, this`committed, w`sys, w`run, w`tick, w`faults,
               w`setbacks
      ensures Coupled() && Queued() == [] && RetriesCounted() && w.Steady()
      ensures w.setbacks == old(w.setbacks) + if ok then 0 else 1
      ensures ok ==> Loaded() && OnlyBufferChanged(outbox.value, old(outbox).value)
      ensures ok ==> Live() == old(Live()) && outbox.value.buffered == drainBase + tail
                     && w.sys.durable == Some(Erase(outbox.value))
    {
      assert Live() == LiveRows(w.sys.client.value);
      ok := SaveReportState(outbox.value.(buffered := drainBase + tail), Drain(rows));
    }

    lemma DrainBalances(ram: Counters, rows: seq<Row>, tail: seq<Row>)
      requires Loaded() && ValidCounters(ram) && "" !in ram && CompleteCapture(ram, rows) && Covered(ram, Live())
      requires tail == Tail(rows, Live()) && outbox.value.buffered == drainBase + tail
      ensures forall uid, d :: Balanced(ram, uid, d)
    {
      forall uid, d
        ensures Balanced(ram, uid, d)
      {
        TailIsExact(ram, rows, Live(), uid, d);
        BytesAppend(drainBase, tail, uid, d);
      }
    }
  }

  /** validateTrafficAck, applied to what came back from the panel. */
  method ValidateTrafficAck(answer: Option<Reply>, exhausted: Option<seq<int>>, b: Batch) returns (ok: bool)
    ensures ok <==> Confirms(Response(answer, exhausted), b)
    ensures ok ==> answer.value == Ack(b.sequence, BodyOf(b))
  {
    if answer.None? || !AckMatches(answer.value, b) || exhausted.None? {
      return false;
    }
    for i := 0 to |exhausted.value|
      invariant forall id :: id in exhausted.value[..i] ==> 0 < id
    {
      assert exhausted.value[..i + 1] == exhausted.value[..i] + [exhausted.value[i]];
      if exhausted.value[i] <= 0 {
        assert exhausted.value[i] in exhausted.value;
        return false;
      }
    }
    assert exhausted.value[..|exhausted.value|] == exhausted.value;
    ok := true;
  }

  /** The users of a batch that the snapshot no longer lists. */
  method Ineligible(rows: seq<Row>, active: set<int>) returns (ids: seq<int>)
    ensures forall id :: id in ids <==> id !in active && id in Uids(rows)
    ensures forall r :: r in rows ==> r.uid in active || r.uid in ids
  {
    ids := [];
    for i := 0 to |rows|
      invariant forall id :: id in ids <==> id !in active && id in Uids(rows[..i])
    {
      UidsExtend(rows[..i], rows[i]);
      assert rows[..i + 1] == rows[..i] + [rows[i]];
      if rows[i].uid !in active {
        ids := ids + [rows[i].uid];
      }
    }
    assert rows[..|rows|] == rows;
  }

  /** The inner loop of PersistTraffic, over the pending rows. */
  method RemoveOverlap(row: Row, pending: seq<Row>) returns (r: Row)
    ensures r == WithoutOverlap(row, pending)
  {
    r := row;
    for j := 0 to |pending|
      invariant r == WithoutOverlap(row, pending[..j])
    {
      assert pending[..j + 1][..j] == pending[..j];
      if r.uuid == pending[j].uuid && r.uid == pending[j].uid {
        r := r.(up := r.up - pending[j].up, down := r.down - pending[j].down);
      }
    }
    assert pending[..|pending|] == pending;
  }

  /** The loop of PersistTraffic over the final counters; None is "inconsistent final counters". */
  method FinalTail(rows: seq<Row>, pending: seq<Row>) returns (tail: Option<seq<Row>>)
    ensures tail.Some? <==> ConsistentTail(rows, pending)
    ensures tail.Some? ==> tail.value == Tail(rows, pending)
  {
    var buffer: seq<Row> := [];
    for i := 0 to |rows|
      invariant ConsistentTail(rows[..i], pending)
      invariant buffer == Tail(rows[..i], pending)
    {
      assert rows[..i + 1] == rows[..i] + [rows[i]];
      TailExtend(rows[..i], rows[i], pending);
      var r := RemoveOverlap(rows[i], pending);
      if r.uid <= 0 || r.up < 0 || r.down < 0 {
        assert rows[i] in rows;
        return None;
      }
      if r.up + r.down > 0 {
        buffer := buffer + [EraseRow(r)];
      }
    }
    assert rows[..|rows|] == rows;
    tail := Some(buffer);
  }
}
