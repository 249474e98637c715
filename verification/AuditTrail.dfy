/** The audit list of the outbox over whole runs: what the files hold of it is what the theorems about
    histories of reports speak of. */
module AuditTrail {
  import opened Options
  import opened TrafficTypes
  import opened AuditHolds
  import opened OutboxMachine
  import opened OutboxInvariant
  import opened OutboxSteps
  import opened OutboxSafety

  /** The batches that have left the outbox: as the file that a process reads shows them, and as the
      file that survives a power loss does. */
  datatype Trails = Trails(visible: seq<Progress>, durable: seq<Progress>)

  /** The batch that leaves with this change, if one does. */
  function ProgressOf(s: Sys, c: Change): seq<Progress>
    requires s.client.Some? && CanChange(s, s.client.value, c)
  {
    match c
    case Advance(now) => [Acknowledged(now)]
    case Finish(now) =>
      var o := s.client.value.outbox.value;
      [Isolated(Hold(o.resolution.value.at, EraseBatch(o.pending.value)), now)]
    case _ => []
  }

  /** A save that drops the list to stay within the size bound starts a new trail. */
  function Follow(s: Sys, a: Action, h: Trails): Trails
    requires Enabled(s, a)
  {
    match a
    case Rename(c, dropHeld) => h.(visible := if dropHeld then [] else h.visible + ProgressOf(s, c))
    case SyncDirectory => h.(durable := h.visible)
    case WriteBack => h.(durable := h.visible)
    case PowerLoss(keep) => if keep then Trails(h.visible, h.visible) else Trails(h.durable, h.durable)
    case _ => h
  }

  function TrailsOf(s: Sys, acts: seq<Action>): Trails
    requires Exec(s, acts).Some?
  {
    if acts == [] then Trails([], [])
    else
      var init := acts[..|acts| - 1];
      Follow(Exec(s, init).value, acts[|acts| - 1], TrailsOf(s, init))
  }

  // ---- files hold the trail ----

  function HeldIn(x: Option<ReportState>): seq<Hold> { if x.Some? then x.value.held else [] }

  predicate FilesHold(s: Sys, h: Trails) {
    HeldIn(s.visible) == HeldAfter(h.visible) && HeldIn(s.durable) == HeldAfter(h.durable)
  }

  lemma {:induction false} UnexpiredErase(held: seq<Hold>, now: int)
    ensures Unexpired(EraseHolds(held), now) == EraseHolds(Unexpired(held, now))
    decreases |held|
  {
    if held != [] {
      var init, h := held[..|held| - 1], held[|held| - 1];
      UnexpiredErase(init, now);
      assert EraseHolds(held)[..|held| - 1] == EraseHolds(init);
      EraseHoldsExtend(Unexpired(init, now), h);
    }
  }

  lemma EraseHoldsExtend(held: seq<Hold>, h: Hold)
    ensures EraseHolds(held + [h]) == EraseHolds(held) + [Hold(h.at, EraseBatch(h.batch))]
  {
  }

  lemma TrimErase(held: seq<Hold>, now: int)
    ensures Trim(EraseHolds(held), now) == EraseHolds(Trim(held, now))
  {
    UnexpiredErase(held, now);
  }

  lemma HeldAfterOneMore(events: seq<Progress>, e: Progress)
    ensures HeldAfter(events + [e])
         == Trim(HeldAfter(events) + (if e.Isolated? then [e.hold] else []), e.now)
  {
    assert (events + [e])[..|events|] == events;
    assert HeldAfter(events) + [] == HeldAfter(events);
  }

  lemma RenameHolds(s: Sys, c: Change, dropHeld: bool, h: Trails)
    requires Agrees(s) && Enabled(s, Rename(c, dropHeld)) && FilesHold(s, h)
    ensures FilesHold(DoRename(s, c, dropHeld), Follow(s, Rename(c, dropHeld), h))
  {
    var t, m := DoRename(s, c, dropHeld), s.client.value;
    assert EraseHolds([]) == [];
    if !dropHeld {
      match c {
        case Advance(now) =>
          TrimErase(m.outbox.value.held, now);
          HeldAfterOneMore(h.visible, Acknowledged(now));
          assert EraseHolds(m.outbox.value.held) + [] == EraseHolds(m.outbox.value.held);
        case Finish(now) =>
          var o := m.outbox.value;
          var hold := Hold(o.resolution.value.at, o.pending.value);
          TrimErase(o.held + [hold], now);
          EraseHoldsExtend(o.held, hold);
          HeldAfterOneMore(h.visible, Isolated(Hold(hold.at, EraseBatch(hold.batch)), now));
        case _ =>
          assert h.visible + [] == h.visible;
      }
    }
  }

  lemma {:induction false} RunsHold(s: Sys, acts: seq<Action>)
    requires Initial(s) && Exec(s, acts).Some?
    ensures Inv(Exec(s, acts).value) && FilesHold(Exec(s, acts).value, TrailsOf(s, acts))
    decreases |acts|
  {
    InitialIsInv(s);
    RunsKeepInv(s, acts);
    if acts != [] {
      var init, a := acts[..|acts| - 1], acts[|acts| - 1];
      RunsHold(s, init);
      StepHolds(Exec(s, init).value, a, TrailsOf(s, init));
    }
  }

  lemma StepHolds(s: Sys, a: Action, h: Trails)
    requires Agrees(s) && Enabled(s, a) && FilesHold(s, h)
    ensures FilesHold(Step(s, a), Follow(s, a, h))
  {
    if a.Rename? {
      RenameHolds(s, a.change, a.dropHeld, h);
    }
  }

  /** After every run, the audit lists of both files, and of the state in memory up to UUIDs, are what
      the reports since the list was last dropped leave, trimmed one by one. */
  lemma HeldIsTheTrail(s: Sys, acts: seq<Action>)
    requires Initial(s) && Exec(s, acts).Some?
    ensures var t, h := Exec(s, acts).value, TrailsOf(s, acts);
            && HeldIn(t.visible) == HeldAfter(h.visible) && HeldIn(t.durable) == HeldAfter(h.durable)
            && (t.client.Some? && Latest(t.client.value).Some? ==>
                  EraseHolds(Latest(t.client.value).value.held) == HeldAfter(h.visible))
  {
    RunsHold(s, acts);
  }

  // ---- the trail is the history ----

  /** All batches that have left the outbox in this run. */
  function AllProgress(s: Sys, acts: seq<Action>): seq<Progress>
    requires Exec(s, acts).Some?
  {
    if acts == [] then []
    else
      var init, a := acts[..|acts| - 1], acts[|acts| - 1];
      AllProgress(s, init) + if a.Rename? then ProgressOf(Exec(s, init).value, a.change) else []
  }

  /** No save drops the list, and no power loss takes a rename back. */
  predicate NothingTakenBack(acts: seq<Action>) {
    forall a :: a in acts ==> a != PowerLoss(false) && (a.Rename? ==> !a.dropHeld)
  }

  lemma {:induction false} TrailIsComplete(s: Sys, acts: seq<Action>)
    requires Exec(s, acts).Some? && NothingTakenBack(acts)
    ensures TrailsOf(s, acts).visible == AllProgress(s, acts)
    decreases |acts|
  {
    if acts != [] {
      var init, a := acts[..|acts| - 1], acts[|acts| - 1];
      assert a in acts && forall x :: x in init ==> x in acts;
      TrailIsComplete(s, init);
      assert AllProgress(s, init) + [] == AllProgress(s, init);
    }
  }

  /** So the audit list of a run that takes nothing back is the list of all its isolated batches,
      trimmed once, if its clock runs forward; and after every report it is, whatever the clock does,
      if and only if no report misses what the one before it has dropped. */
  lemma AuditListIsTrimmedHistory(s: Sys, acts: seq<Action>)
    requires Initial(s) && Exec(s, acts).Some? && NothingTakenBack(acts)
    ensures var events := AllProgress(s, acts);
            && (ClockRunsForward(events) ==>
                  HeldIn(Exec(s, acts).value.visible) == Trim(History(events), LastTrim(events)))
            && (AlwaysTrimmedHistory(events) <==> NeverMissing(events))
            && (NeverMissing(events) ==>
                  HeldIn(Exec(s, acts).value.visible) == Trim(History(events), LastTrim(events)))
  {
    HeldIsTheTrail(s, acts);
    TrailIsComplete(s, acts);
    var events := AllProgress(s, acts);
    HeldIsTrimmedHistoryIff(events);
    if ClockRunsForward(events) {
      HeldIsTrimmedHistory(events);
    }
  }
}
