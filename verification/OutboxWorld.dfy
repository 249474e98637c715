/** The surroundings of the panel client: panel, network, disk, clock and counters. Every effect is
    an action of the outbox machine, so the actions performed always form a run of that machine.
    Whatever the client cannot control is decided by a list of choices that is quantified over. */
module OutboxWorld {
  import opened Options
  import opened TrafficTypes
  import opened Batching
  import opened Totals
  import opened DrainTotals
  import opened Panel
  import opened OutboxMachine
  import opened OutboxInvariant
  import opened OutboxSteps
  import opened OutboxSafety

  /** What happens at one interaction: interleaved environment actions, then success or failure,
      the answer received, the rows read from the counters, the time. */
  datatype Choice = Choice(
    env: seq<Action>, ok: bool, dropHeld: bool, answer: Reply, cursor: nat, rows: seq<Row>, now: int, users: set<int>,
    exhausted: Option<seq<int>>)

  /** What came back for a POST. */
  datatype Response = Response(answer: Option<Reply>, exhausted: Option<seq<int>>)

  datatype FileRead = Failed | Missing | Content(state: ReportState)

  /** The environment actions that can come between two actions of the client. */
  predicate IsInterference(a: Action) { a.Log? || a.Deliver? || a.Foreign? || a.WriteBack? }

  /** Interference leaves the process, its files and its history alone, and only adds answers and bytes. */
  ghost predicate Undisturbed(s: Sys, t: Sys) {
    && t.client == s.client && t.visible == s.visible && (t.durable == s.durable || t.durable == t.visible)
    && t.issued == s.issued && t.posted == s.posted
    && s.replies <= t.replies && |s.log| <= |t.log|
    && (s.client.Some? && s.client.value.draining ==> t.ram == s.ram)
    && forall r :: RowCovered(s.ram, r) ==> RowCovered(t.ram, r)
  }

  function Sends(run: seq<Action>): nat {
    if run == [] then 0 else Sends(run[..|run| - 1]) + if run[|run| - 1].Send? then 1 else 0
  }

  lemma InterferenceIsUndisturbed(s: Sys, a: Action)
    requires IsInterference(a) && Enabled(s, a)
    ensures Undisturbed(s, Step(s, a))
    ensures !a.Log? ==> Step(s, a).ram == s.ram
  {
  }

  lemma ChangeStaysPossible(s: Sys, t: Sys, m: Mem, c: Change)
    requires Undisturbed(s, t) && s.client == Some(m) && CanChange(s, m, c)
    ensures CanChange(t, m, c)
  {
  }

  /** The client's memory when `y` has been renamed over the file. */
  function Renamed(m: Mem, c: Change, y: ReportState): Mem {
    m.(unsynced := Some(y), queued := if c.FromCounters? then Pick(m.queued).rest else m.queued)
  }

  lemma RenameStep(s: Sys, m: Mem, c: Change, dropHeld: bool)
    requires s.client == Some(m) && CanChange(s, m, c)
    ensures var t, next := Step(s, Rename(c, dropHeld)), NextState(m, c, |s.issued|);
            && t.client == Some(Renamed(m, c, if dropHeld then next.(held := []) else next))
            && t.replies == s.replies && t.ram == s.ram && t.log == s.log
  {
  }

  class World {
    var sys: Sys
    var tick: nat
    /** Forwarding has been stopped: no callback counts bytes any more. */
    var quiesced: bool
    /** The last eligibility snapshot, the users named by the last answer to a POST, and the users
        whose revocation succeeded. */
    var eligible: set<int>
    var exhausted: Option<seq<int>>
    var revoked: set<int>
    const choices: nat -> Choice
    ghost const start: Sys
    ghost var run: seq<Action>
    /** Refused renames, refused directory syncs and unusable cursors so far; and these together with
        all other calls that failed, but for POSTs. */
    ghost var faults: nat
    ghost var setbacks: nat
    /** What came back for each POST, and everything that was read from the counters. */
    ghost var responses: seq<Response>
    ghost var captures: seq<seq<Row>>

    /** A node that was never started, and everything that will happen to it. */
    constructor (start: Sys, choices: nat -> Choice)
      requires Initial(start)
      ensures Valid() && sys == start && run == [] && faults == 0 && setbacks == 0 && responses == [] && captures == []
      ensures !quiesced && this.choices == choices
    {
      sys, tick, quiesced := start, 0, false;
      eligible, exhausted, revoked := {}, None, {};
      this.choices, this.start, run := choices, start, [];
      faults, setbacks, responses, captures := 0, 0, [], [];
    }

    /** A process starts. */
    method Boot()
      requires Valid() && sys.client.None?
      modifies this`sys, this`run
      ensures Valid() && sys.client == Some(FRESH_CLIENT)
    {
      Do(Action.Boot);
    }

    /** The actions so far are a run of a new node, and they led here. */
    ghost predicate Valid()
      reads this
    {
      Initial(start) && Exec(start, run) == Some(sys)
    }

    /** Answers and accepted reports are never lost, and quiescent counters do not move. */
    twostate predicate Steady()
      reads this
    {
      && old(sys).replies <= sys.replies && |old(sys).log| <= |sys.log|
      && (quiesced ==> sys.ram == old(sys).ram)
    }

    lemma Invariant()
      requires Valid()
      ensures Inv(sys)
    {
      InitialIsInv(start);
      RunsKeepInv(start, run);
    }

    lemma Agreement()
      requires Valid()
      ensures sys.client.Some? && Latest(sys.client.value).Some? ==>
                sys.visible == Some(Erase(Latest(sys.client.value).value))
    {
      Invariant();
    }

    method Do(a: Action)
      requires Valid() && Enabled(sys, a)
      modifies this`sys, this`run
      ensures Valid() && sys == Step(old(sys), a) && run == old(run) + [a]
      ensures Sends(run) == Sends(old(run)) + if a.Send? then 1 else 0
    {
      assert (run + [a])[..|run|] == run;
      sys, run := Step(sys, a), run + [a];
    }

    // ---- what the client does in its own memory ----

    /** Everything but the client's memory, and the counters unless they are committed, stays. */
    twostate predicate OnlyMemory()
      reads this
    {
      && sys.replies == old(sys).replies && sys.log == old(sys).log && sys.durable == old(sys).durable
      && sys.issued == old(sys).issued && sys.posted == old(sys).posted
    }

    method Load()
      requires Valid() && Enabled(sys, Action.Load)
      modifies this`sys, this`run
      ensures Valid() && OnlyMemory() && sys.ram == old(sys.ram) && Sends(run) == Sends(old(run))
      ensures sys.client == Some(old(sys).client.value.(
                              outbox := old(sys).visible, recovered := old(sys).visible.value.pending.Some?))
    {
      Do(Action.Load);
    }

    method Commit()
      requires Valid() && Enabled(sys, Action.Commit)
      modifies this`sys, this`run
      ensures Valid() && OnlyMemory() && Sends(run) == Sends(old(run))
      ensures sys.client == Some(old(sys).client.value.(committed := true))
    {
      Do(Action.Commit);
    }

    method TakeBuffer()
      requires Valid() && Enabled(sys, Action.TakeBuffer)
      modifies this`sys, this`run
      ensures Valid() && OnlyMemory() && sys.ram == old(sys.ram) && Sends(run) == Sends(old(run))
      ensures sys.client == Some(old(sys).client.value.(recovered := true))
    {
      Do(Action.TakeBuffer);
    }

    method Capture(queued: seq<Row>)
      requires Valid() && Enabled(sys, Action.Capture(queued))
      modifies this`sys, this`run
      ensures Valid() && OnlyMemory() && sys.ram == old(sys.ram) && Sends(run) == Sends(old(run))
      ensures sys.client == Some(old(sys).client.value.(queued := queued))
    {
      Do(Action.Capture(queued));
    }

    method EndRound()
      requires Valid() && sys.client.Some?
      modifies this`sys, this`run
      ensures Valid() && OnlyMemory() && sys.ram == old(sys.ram) && Sends(run) == Sends(old(run))
      ensures sys.client == Some(old(sys).client.value.(queued := []))
    {
      Do(Action.EndRound);
    }

    method StartDrain()
      requires Valid() && Enabled(sys, Action.StartDrain)
      modifies this`sys, this`run
      ensures Valid() && OnlyMemory() && sys.ram == old(sys.ram) && Sends(run) == Sends(old(run))
      ensures sys.client == Some(old(sys).client.value.(
                              draining := true, drainBase := old(sys).client.value.outbox.value.buffered))
    {
      Do(Action.StartDrain);
    }

    method DrainDone()
      requires Valid() && Enabled(sys, Action.DrainDone)
      modifies this`sys, this`run
      ensures Valid() && OnlyMemory() && sys.ram == old(sys.ram) && Sends(run) == Sends(old(run))
      ensures sys.client == Some(old(sys).client.value.(drainSaved := true))
    {
      Do(Action.DrainDone);
    }

    // ---- what it does with the world ----

    /** Other threads, the network and other writers act. */
    method Interfere()
      requires Valid()
      modifies this`sys, this`run, this`tick
      ensures Valid() && Undisturbed(old(sys), sys) && Steady()
      ensures Sends(run) == Sends(old(run))
    {
      var env := choices(tick).env;
      tick := tick + 1;
      for i := 0 to |env|
        invariant Valid() && Undisturbed(old(sys), sys)
        invariant quiesced ==> sys.ram == old(sys).ram
        invariant Sends(run) == Sends(old(run))
      {
        var a := env[i];
        if IsInterference(a) && Enabled(sys, a) && !(quiesced && a.Log?) {
          InterferenceIsUndisturbed(sys, a);
          Do(a);
        }
      }
    }

    method ReadFile() returns (r: FileRead)
      requires Valid()
      modifies this`sys, this`run, this`tick, this`setbacks
      ensures Valid() && Undisturbed(old(sys), sys) && Steady()
      ensures setbacks == old(setbacks) + if r.Failed? then 1 else 0
      ensures Sends(run) == Sends(old(run))
      ensures r.Missing? ==> sys.visible.None?
      ensures r.Content? ==> sys.visible == Some(r.state)
    {
      var ok := choices(tick).ok;
      Interfere();
      setbacks := setbacks + if ok then 0 else 1;
      r := if !ok then Failed else if sys.visible.Some? then Content(sys.visible.value) else Missing;
    }

    /** Write a temporary file and rename it over the state file. */
    method RenameTo(change: Change, next: ReportState) returns (renamed: Option<ReportState>)
      requires Valid() && sys.client.Some? && CanChange(sys, sys.client.value, change)
      requires next == NextState(sys.client.value, change, |sys.issued|)
      modifies this`sys, this`run, this`tick, this`faults, this`setbacks
      ensures Valid() && Steady()
      ensures Sends(run) == Sends(old(run))
      ensures faults == old(faults) + if renamed.None? then 1 else 0
      ensures setbacks == old(setbacks) + if renamed.None? then 1 else 0
      ensures renamed.None? ==> sys.client == old(sys).client
      ensures renamed.Some? ==>
                && (renamed.value == next || renamed.value == next.(held := []))
                && sys.client == Some(Renamed(old(sys).client.value, change, renamed.value))
    {
      var c := choices(tick);
      Interfere();
      if !c.ok {
        faults, setbacks := faults + 1, setbacks + 1;
        return None;
      }
      ghost var m := sys.client.value;
      ChangeStaysPossible(old(sys), sys, m, change);
      RenameStep(sys, m, change, c.dropHeld);
      Do(Rename(change, c.dropHeld));
      renamed := Some(if c.dropHeld then next.(held := []) else next);
    }

    method SyncDirectory() returns (ok: bool)
      requires Valid() && sys.client.Some? && sys.client.value.unsynced.Some?
      modifies this`sys, this`run, this`tick, this`faults, this`setbacks
      ensures Valid() && Steady()
      ensures Sends(run) == Sends(old(run))
      ensures faults == old(faults) + if ok then 0 else 1
      ensures setbacks == old(setbacks) + if ok then 0 else 1
      ensures !ok ==> sys.client == old(sys).client
      ensures ok ==> var m := old(sys).client.value;
                     sys.client == Some(m.(outbox := m.unsynced, unsynced := None,
                                           recovered := m.recovered && m.unsynced.value.pending.Some?,
                                           committed := m.committed && m.unsynced.value.pending.Some?))
                     && sys.durable == Some(Erase(old(sys).client.value.unsynced.value))
    {
      ok := choices(tick).ok;
      Interfere();
      if ok {
        Agreement();
        Do(Action.SyncDirectory);
      } else {
        faults, setbacks := faults + 1, setbacks + 1;
      }
    }

    /** Send the pending batch. None stands for a transport failure or an unusable answer. */
    method Post() returns (answer: Option<Reply>)
      requires Valid() && Enabled(sys, Send)
      modifies this`sys, this`run, this`tick, this`exhausted, this`responses
      ensures Valid() && sys.client == old(sys).client && Steady() && sys.posted
      ensures Sends(run) == Sends(old(run)) + 1
      ensures answer.Some? ==> answer.value in sys.replies
      ensures responses == old(responses) + [Response(answer, exhausted)]
    {
      Interfere();
      Do(Send);
      var c := choices(tick);
      Interfere();
      answer := if c.ok && c.answer in sys.replies then Some(c.answer) else None;
      exhausted := c.exhausted;
      responses := responses + [Response(answer, exhausted)];
    }

    /** GET state: the next sequence, if the panel answers. */
    method GetCursor() returns (next: Option<nat>)
      requires Valid()
      modifies this`sys, this`run, this`tick, this`faults, this`setbacks
      ensures Valid() && Undisturbed(old(sys), sys) && Steady() && Sends(run) == Sends(old(run))
      ensures faults == old(faults) + if next.Some? && 0 < next.value <= MAX_INT64 then 0 else 1
      ensures setbacks == old(setbacks) + if next.Some? && 0 < next.value <= MAX_INT64 then 0 else 1
      ensures next.Some? ==> next.value == |sys.log| + 1
    {
      var ok := choices(tick).ok;
      Interfere();
      next := if ok then Some(|sys.log| + 1) else None;
      if next.None? || next.value > MAX_INT64 {
        faults, setbacks := faults + 1, setbacks + 1;
      }
    }

    /** The capture callback: rows read from the counters. At quiescence, with no reporting
        threshold, it reads every counter that is not zero. */
    method ReadCounters(complete: bool) returns (rows: Option<seq<Row>>)
      requires Valid()
      modifies this`sys, this`run, this`tick, this`setbacks, this`captures
      ensures Valid() && Undisturbed(old(sys), sys) && Steady() && Sends(run) == Sends(old(run))
      ensures setbacks == old(setbacks) + if rows.Some? then 0 else 1
      ensures captures == old(captures) + if rows.Some? then [rows.value] else []
      ensures rows.Some? ==> Covered(sys.ram, rows.value)
      ensures rows.Some? && complete ==> CompleteCapture(sys.ram, rows.value)
    {
      var c := choices(tick);
      Interfere();
      rows := if c.ok && Covered(sys.ram, c.rows) && (complete ==> CompleteCapture(sys.ram, c.rows))
              then Some(c.rows) else None;
      setbacks := setbacks + if rows.Some? then 0 else 1;
      captures := captures + if rows.Some? then [rows.value] else [];
    }

    /** A call that can fail and changes nothing here. */
    method Attempt() returns (ok: bool)
      requires Valid()
      modifies this`sys, this`run, this`tick, this`setbacks
      ensures Valid() && Undisturbed(old(sys), sys) && Steady() && Sends(run) == Sends(old(run))
      ensures setbacks == old(setbacks) + if ok then 0 else 1
    {
      ok := choices(tick).ok;
      Interfere();
      setbacks := setbacks + if ok then 0 else 1;
    }

    /** The revoke callback: all of these users, or a failure. */
    method Revoke(ids: seq<int>) returns (ok: bool)
      requires Valid()
      modifies this`sys, this`run, this`tick, this`setbacks, this`revoked
      ensures Valid() && Undisturbed(old(sys), sys) && Steady() && Sends(run) == Sends(old(run))
      ensures setbacks == old(setbacks) + if ok then 0 else 1
      ensures ok ==> forall id :: id in ids ==> id in revoked
    {
      ok := choices(tick).ok;
      Interfere();
      setbacks := setbacks + if ok then 0 else 1;
      if ok {
        revoked := revoked + set id | id in ids;
      }
    }

    /** The eligible users, if the panel answers with a valid snapshot. */
    method FetchUsers() returns (users: Option<set<int>>)
      requires Valid()
      modifies this`sys, this`run, this`tick, this`setbacks, this`eligible
      ensures Valid() && Undisturbed(old(sys), sys) && Steady() && Sends(run) == Sends(old(run))
      ensures setbacks == old(setbacks) + if users.Some? then 0 else 1
      ensures users.Some? ==> users.value == eligible
    {
      var c := choices(tick);
      Interfere();
      eligible := c.users;
      users := if c.ok then Some(c.users) else None;
      setbacks := setbacks + if c.ok then 0 else 1;
    }

    /** Forwarding has stopped. */
    method StopCounting()
      modifies this`quiesced
      ensures quiesced
    {
      quiesced := true;
    }

    /** Unix time; the clock is past 1970. */
    method Clock() returns (now: int)
      ensures 0 < now
    {
      now := if choices(tick).now > 0 then choices(tick).now else 1;
    }
  }
}
