/** Why a batch may be isolated: the panel has shown that its cursor is ahead, or the batch has been
    sent three times without an answer that settles it. */
module IsolationReasons {
  import opened Options
  import opened TrafficTypes
  import opened Panel
  import opened OutboxMachine
  import opened OutboxInvariant
  import opened OutboxSteps
  import opened OutboxSafety

  // ---- failures are POSTs ----

  /** How often a run has sent the batch with this origin. */
  function PostsOf(s: Sys, acts: seq<Action>, origin: nat): nat
    requires Exec(s, acts).Some?
  {
    if acts == [] then 0
    else
      var init, a := acts[..|acts| - 1], acts[|acts| - 1];
      PostsOf(s, init, origin)
      + if a.Send? && Exec(s, init).value.client.value.outbox.value.pending.value.origin == origin then 1 else 0
  }

  function One(b: bool): nat { if b then 1 else 0 }

  predicate PostedIsPending(t: Sys) { t.posted ==> t.client.Some? && HasPending(t.client.value) }

  /** The failures in a file, and the POST whose outcome is not saved yet. */
  predicate Tried(x: Option<ReportState>, open: nat, s: Sys, acts: seq<Action>)
    requires Exec(s, acts).Some?
  {
    x.Some? && x.value.pending.Some? ==> x.value.failures + open <= PostsOf(s, acts, x.value.pending.value.origin)
  }

  predicate AllTried(s: Sys, acts: seq<Action>)
    requires Exec(s, acts).Some?
  {
    var t := Exec(s, acts).value;
    PostedIsPending(t) && Tried(t.visible, One(t.posted), s, acts) && Tried(t.durable, 0, s, acts)
  }

  /** What a step does to the failure count of the file. */
  predicate CountsOn(t: Sys, u: Sys, sent: bool) {
    u.visible.Some? && u.visible.value.pending.Some? ==>
      || (u.visible.value.failures == 0 && !u.posted)
      || (SamePending(u.visible, t.visible)
          && u.visible.value.failures + One(u.posted) <= t.visible.value.failures + One(t.posted) + One(sent))
  }

  lemma RenameCounts(t: Sys, c: Change, dropHeld: bool)
    requires Agrees(t) && Enabled(t, Rename(c, dropHeld))
    ensures CountsOn(t, DoRename(t, c, dropHeld), false) && !DoRename(t, c, dropHeld).posted
  {
    var m, n := t.client.value, DoRename(t, c, dropHeld).client.value;
    if c.FromBuffer? || c.FromCounters? {
      assert Latest(n).value.failures == 0;
    } else if Latest(n).value.pending.Some? {
      assert m.outbox.Some? && Latest(n).value.pending.value.origin == m.outbox.value.pending.value.origin;
    }
  }

  lemma StepCounts(t: Sys, a: Action)
    requires Agrees(t) && Enabled(t, a) && PostedIsPending(t) && a != PowerLoss(false)
    ensures CountsOn(t, Step(t, a), a.Send?) && PostedIsPending(Step(t, a))
    ensures Step(t, a).durable == t.durable || Step(t, a).durable == t.visible
  {
    if a.Rename? {
      RenameCounts(t, a.change, a.dropHeld);
    } else {
      assert Step(t, a).visible == t.visible;
    }
  }

  /** Posts are only added, and a Send adds one for the pending batch. */
  lemma OneMorePost(s: Sys, init: seq<Action>, a: Action, origin: nat)
    requires Exec(s, init + [a]).Some?
    ensures Exec(s, init).Some? && Enabled(Exec(s, init).value, a)
    ensures PostsOf(s, init, origin) <= PostsOf(s, init + [a], origin)
    ensures a.Send? && Exec(s, init).value.client.value.outbox.value.pending.value.origin == origin ==>
              PostsOf(s, init + [a], origin) == PostsOf(s, init, origin) + 1
  {
    assert (init + [a])[..|init|] == init;
  }

  lemma TriedStep(s: Sys, init: seq<Action>, a: Action)
    requires Exec(s, init + [a]).Some? && Exec(s, init).Some? && AllTried(s, init) && Agrees(Exec(s, init).value)
    ensures AllTried(s, init + [a])
  {
    var t, u := Exec(s, init).value, Exec(s, init + [a]).value;
    assert (init + [a])[..|init|] == init && u == Step(t, a);
    if t.visible.Some? && t.visible.value.pending.Some? {
      OneMorePost(s, init, a, t.visible.value.pending.value.origin);
    }
    if t.durable.Some? && t.durable.value.pending.Some? {
      OneMorePost(s, init, a, t.durable.value.pending.value.origin);
    }
    if a != PowerLoss(false) {
      StepCounts(t, a);
    }
  }

  /** In every run, the failure count of a file is at most the number of POSTs of its batch. */
  lemma {:induction false} FailuresArePosts(s: Sys, acts: seq<Action>)
    requires Initial(s) && Exec(s, acts).Some?
    ensures AllTried(s, acts)
    decreases |acts|
  {
    if acts != [] {
      var init, a := acts[..|acts| - 1], acts[|acts| - 1];
      FailuresArePosts(s, init);
      InitialIsInv(s);
      RunsKeepInv(s, init);
      assert acts == init + [a];
      TriedStep(s, init, a);
    }
  }

  // ---- isolation ----

  /** The marker of this batch is justified: the panel's answer to exactly this report shows that it has
      accepted a later one; or the failure count is three, the batch was sent at least three times, and
      the cursor is one that the panel has reported. */
  predicate Justified(t: Sys, b: Batch, next: nat, proof: Option<Reply>, failures: int, posts: nat) {
    match proof
    case Some(r) =>
      && r in t.replies && r.Conflict? && r.requestSequence == b.sequence && r.requestDigest == BodyOf(b)
      && b.sequence < r.sequence <= |t.log| && next == Inc64(r.sequence)
    case None => failures == 3 && 3 <= posts && next <= |t.log| + 1
  }

  /** In every run, a batch without a marker gets one only for a reason. */
  lemma MarkedForAReason(start: Sys, acts: seq<Action>, k: nat)
    requires Initial(start) && Exec(start, acts).Some? && k < |acts| && acts[k].Rename? && acts[k].change.Mark?
    ensures Exec(start, acts[..k]).Some?
    ensures var t := Exec(start, acts[..k]).value;
            && t.visible.Some? && t.visible.value.pending.Some? && t.visible.value.resolution.None?
            && Justified(t, t.visible.value.pending.value, acts[k].change.next, acts[k].change.proof,
                         t.visible.value.failures, PostsOf(start, acts[..k], t.visible.value.pending.value.origin))
  {
    InitialIsInv(start);
    ExecPrefix(start, acts, k);
    RunsKeepInv(start, acts[..k]);
    FailuresArePosts(start, acts[..k]);
    MarkIsJustified(Exec(start, acts[..k]).value, acts[k].change, acts[k].dropHeld);
  }

  lemma MarkIsJustified(t: Sys, c: Change, dropHeld: bool)
    requires FilesFit(t) && c.Mark? && Enabled(t, Rename(c, dropHeld))
    ensures t.visible.Some? && t.visible.value.pending.Some? && t.visible.value.resolution.None?
    ensures Justified(t, t.visible.value.pending.value, c.next, c.proof, t.visible.value.failures, 3)
  {
    var o := t.client.value.outbox.value;
    assert t.visible == Some(Erase(o));
    EraseTwice(o.pending.value.rows);
    if c.proof.Some? {
      assert Truthful(t.log, c.proof.value);
    }
  }

  /** Only a Mark puts a marker on a batch that is pending without one. */
  lemma OnlyMarkMarks(start: Sys, acts: seq<Action>, a: Action)
    requires Initial(start) && Exec(start, acts).Some? && Enabled(Exec(start, acts).value, a)
    ensures var t := Exec(start, acts).value;
            t.visible.Some? && t.visible.value.pending.Some? && t.visible.value.resolution.None?
            && SamePending(Step(t, a).visible, t.visible) && Step(t, a).visible.value.resolution.Some? ==>
              a.Rename? && a.change.Mark?
  {
    InitialIsInv(start);
    RunsKeepInv(start, acts);
    var t := Exec(start, acts).value;
    if t.visible.Some? && t.visible.value.pending.Some? && t.visible.value.resolution.None?
       && SamePending(Step(t, a).visible, t.visible) && Step(t, a).visible.value.resolution.Some? {
      MarkersOnlyByMark(t, a);
    }
  }

  lemma MarkersOnlyByMark(t: Sys, a: Action)
    requires FilesFit(t) && Enabled(t, a)
    requires t.visible.Some? && t.visible.value.pending.Some? && t.visible.value.resolution.None?
    requires SamePending(Step(t, a).visible, t.visible) && Step(t, a).visible.value.resolution.Some?
    ensures a.Rename? && a.change.Mark?
  {
    assert MarkedBy(t.durable) <= t.marked;
    if a.Rename? {
      assert t.client.value.outbox.Some? ==> t.visible == Some(Erase(t.client.value.outbox.value));
    }
  }
}
