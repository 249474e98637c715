/** Which batches were subtracted from the counters: live batches exactly once before they leave
    the outbox, batches of an earlier runtime never. */
module CommitAudit {
  import opened Options
  import opened TrafficTypes
  import opened Batching
  import opened OutboxMachine
  import opened OutboxInvariant
  import opened OutboxSteps

  /** `born`: batches formed from the counters of the running process.
      `debited`: for each batch, how often its rows were subtracted from counters. */
  datatype Audit = Audit(born: set<nat>, debited: map<nat, nat>)

  function Debits(h: Audit, origin: nat): nat { if origin in h.debited then h.debited[origin] else 0 }

  function Observe(s: Sys, a: Action, h: Audit): Audit
    requires Enabled(s, a)
  {
    match a
    case Exit => h.(born := {})
    case PowerLoss(_) => h.(born := {})
    case Rename(c, _) => if c.FromCounters? then h.(born := h.born + {|s.issued|}) else h
    case Commit =>
      var o := s.client.value.outbox.value.pending.value.origin;
      h.(debited := h.debited[o := Debits(h, o) + 1])
    case _ => h
  }

  function ObserveRun(s: Sys, acts: seq<Action>): Audit
    requires Exec(s, acts).Some?
  {
    if acts == [] then Audit({}, map[])
    else
      var init := acts[..|acts| - 1];
      Observe(Exec(s, init).value, acts[|acts| - 1], ObserveRun(s, init))
  }

  /** The observer's knowledge about the batch that is pending in client memory. */
  predicate ClientAudited(m: Mem, h: Audit) {
    && (Latest(m).None? ==> h.born == {})
    && (Latest(m).Some? && Latest(m).value.pending.Some? ==>
          var o := Latest(m).value.pending.value.origin;
          && (m.recovered <==> o !in h.born)
          && (!m.recovered ==> Debits(h, o) == if m.committed then 1 else 0))
  }

  predicate AuditOk(formed: nat, client: Option<Mem>, h: Audit) {
    && (forall i :: i in h.born ==> i < formed)
    && (forall i :: i in h.debited ==> i < formed && h.debited[i] <= 1)
    && (client.None? ==> h.born == {})
    && (client.Some? ==> ClientAudited(client.value, h))
  }

  lemma LatestOriginIsOld(s: Sys)
    requires FilesFit(s) && s.client.Some? && Latest(s.client.value).Some? && Latest(s.client.value).value.pending.Some?
    ensures Latest(s.client.value).value.pending.value.origin < |s.issued|
  {
    var x := Latest(s.client.value).value;
    PendingErase(s.log, s.posts, s.issued, s.marked, x);
  }

  /** A batch that is formed now is new to the observer. */
  lemma FormingKeepsAudit(s: Sys, c: Change, dropHeld: bool, h: Audit)
    requires FilesFit(s) && Enabled(s, Rename(c, dropHeld)) && AuditOk(|s.issued|, s.client, h)
    requires c.FromBuffer? || c.FromCounters?
    ensures var t := DoRename(s, c, dropHeld);
            AuditOk(|t.issued|, t.client, Observe(s, Rename(c, dropHeld), h))
  {
    assert |s.issued| !in h.born && |s.issued| !in h.debited;
  }

  lemma RenameKeepsAudit(s: Sys, c: Change, dropHeld: bool, h: Audit)
    requires FilesFit(s) && Enabled(s, Rename(c, dropHeld)) && AuditOk(|s.issued|, s.client, h)
    ensures var t := DoRename(s, c, dropHeld);
            AuditOk(|t.issued|, t.client, Observe(s, Rename(c, dropHeld), h))
  {
    if c.FromBuffer? || c.FromCounters? {
      FormingKeepsAudit(s, c, dropHeld, h);
    } else {
      var m, n := s.client.value, DoRename(s, c, dropHeld).client.value;
      assert n.recovered == m.recovered && n.committed == m.committed;
      assert Latest(n).value.pending.Some? ==>
          HasPending(m) && Latest(n).value.pending.value.origin == m.outbox.value.pending.value.origin;
    }
  }

  lemma CommitKeepsAudit(s: Sys, h: Audit)
    requires FilesFit(s) && Enabled(s, Commit) && AuditOk(|s.issued|, s.client, h)
    ensures AuditOk(|s.issued|, DoCommit(s).client, Observe(s, Commit, h))
  {
    LatestOriginIsOld(s);
  }

  /** Actions that touch neither the report state nor its flags. */
  predicate Quiet(a: Action) {
    a.Log? || a.Deliver? || a.Foreign? || a.Capture? || a.EndRound? || a.Send? || a.StartDrain?
    || a.DrainDone? || a.WriteBack?
  }

  lemma QuietKeepsAudit(s: Sys, a: Action, h: Audit)
    requires Enabled(s, a) && Quiet(a) && AuditOk(|s.issued|, s.client, h)
    ensures AuditOk(|Step(s, a).issued|, Step(s, a).client, h)
  {
    var t := Step(s, a);
    assert t.issued == s.issued && (t.client.Some? <==> s.client.Some?);
    if s.client.Some? {
      var m, n := s.client.value, t.client.value;
      assert Latest(n) == Latest(m) && n.recovered == m.recovered && n.committed == m.committed;
    }
  }

  lemma LoadKeepsAudit(s: Sys, a: Action, h: Audit)
    requires FilesFit(s) && Enabled(s, a) && AuditOk(|s.issued|, s.client, h)
    requires a.Boot? || a.Load? || a.SyncDirectory? || a.TakeBuffer? || a.Exit? || a.PowerLoss?
    ensures AuditOk(|Step(s, a).issued|, Step(s, a).client, Observe(s, a, h))
  {
  }

  lemma StepKeepsAudit(s: Sys, a: Action, h: Audit)
    requires FilesFit(s) && Enabled(s, a) && AuditOk(|s.issued|, s.client, h)
    ensures AuditOk(|Step(s, a).issued|, Step(s, a).client, Observe(s, a, h))
  {
    if a.Rename? {
      RenameKeepsAudit(s, a.change, a.dropHeld, h);
    } else if a.Commit? {
      CommitKeepsAudit(s, h);
    } else if Quiet(a) {
      QuietKeepsAudit(s, a, h);
    } else {
      LoadKeepsAudit(s, a, h);
    }
  }

  lemma {:induction false} RunsKeepAudit(s: Sys, acts: seq<Action>)
    requires Initial(s) && Exec(s, acts).Some?
    ensures Inv(Exec(s, acts).value)
    ensures var t := Exec(s, acts).value; AuditOk(|t.issued|, t.client, ObserveRun(s, acts))
    decreases |acts|
  {
    if acts == [] {
      InitialIsInv(s);
    } else {
      var init := acts[..|acts| - 1];
      RunsKeepAudit(s, init);
      StepKeeps(Exec(s, init).value, acts[|acts| - 1]);
      StepKeepsAudit(Exec(s, init).value, acts[|acts| - 1], ObserveRun(s, init));
    }
  }

  /** Over every run: no batch is ever subtracted twice, and a subtraction only concerns
      counters of the process that performs it. */
  lemma NeverSubtractedTwice(s: Sys, acts: seq<Action>)
    requires Initial(s) && Exec(s, acts).Some?
    ensures forall i :: Debits(ObserveRun(s, acts), i) <= 1
    ensures var t, h := Exec(s, acts).value, ObserveRun(s, acts);
            Enabled(t, Commit) ==>
              var o := t.client.value.outbox.value.pending.value.origin;
              o in h.born && Debits(h, o) == 0
  {
    RunsKeepAudit(s, acts);
    var t := Exec(s, acts).value;
    if Enabled(t, Commit) {
      AuditTells(t, ObserveRun(s, acts));
    }
  }

  /** What the observer knows when the client is about to subtract, and about to let a batch go. */
  lemma AuditTells(t: Sys, h: Audit)
    requires AuditOk(|t.issued|, t.client, h) && t.client.Some? && HasPending(t.client.value)
    ensures var m, o := t.client.value, t.client.value.outbox.value.pending.value.origin;
            && (!m.recovered && !m.committed ==> o in h.born && Debits(h, o) == 0)
            && (m.recovered || m.committed ==> if o in h.born then Debits(h, o) == 1 else m.recovered)
  {
  }

  /** Over every run: a batch leaves the outbox, acknowledged or isolated, either recovered
      from an earlier runtime and untouched by this one, or after exactly one subtraction. */
  lemma SubtractedBeforeLeaving(s: Sys, acts: seq<Action>, a: Action)
    requires Initial(s) && Exec(s, acts).Some?
    requires Enabled(Exec(s, acts).value, a) && a.Rename? && (a.change.Advance? || a.change.Finish?)
    ensures var t, h := Exec(s, acts).value, ObserveRun(s, acts);
            var o := t.client.value.outbox.value.pending.value.origin;
            if o in h.born then Debits(h, o) == 1 else t.client.value.recovered
  {
    RunsKeepAudit(s, acts);
    LeavingNeeds(Exec(s, acts).value, a);
    AuditTells(Exec(s, acts).value, ObserveRun(s, acts));
  }

  lemma LeavingNeeds(t: Sys, a: Action)
    requires Enabled(t, a) && a.Rename? && (a.change.Advance? || a.change.Finish?)
    ensures t.client.Some? && HasPending(t.client.value) && (t.client.value.recovered || t.client.value.committed)
  {
  }
}
