/** The outbox protocol as a state machine: panel, network, disk, client memory and RAM counters.
    Every action is one atomic effect; a crash may come between any two of them.

    Guards of client actions mention only what the client knows (its own memory, the file it can
    read and the answers it received). What they imply about the panel and about durability is
    the business of the invariant. */
module OutboxMachine {
  import opened Options
  import opened TrafficTypes
  import opened Batching
  import opened Totals
  import opened Panel
  import opened AuditHolds

  /** The fields of the panel client that the protocol uses (api/v2board/panel.go:30-39) and the
      rows of the current capture that are still to be sent. */
  datatype Mem = Mem(
    outbox: Option<ReportState>,
    unsynced: Option<ReportState>,
    recovered: bool,
    committed: bool,
    draining: bool,
    drainSaved: bool,
    drainBase: seq<Row>,
    queued: seq<Row>)

  const FRESH_CLIENT := Mem(None, None, false, false, false, false, [], [])

  datatype Sys = Sys(
    // panel and network: every request ever sent may be delivered at any time, any number of times
    log: seq<Entry>,
    posts: set<Batch>,
    replies: set<Reply>,
    // disk: the file a process reads, and the file that survives a power loss
    visible: Option<ReportState>,
    durable: Option<ReportState>,
    // the process
    client: Option<Mem>,
    ram: Counters,
    // it has sent its pending batch and has not saved a new state since
    posted: bool,
    // history: bytes ever counted, batches ever formed, batches ever sent, batches with a durable marker
    counted: Counters,
    issued: seq<seq<Row>>,
    launched: set<nat>,
    marked: set<nat>,
    // history, about rows of the durable file's buffer that batches in later files have taken: all
    // of them, those in the pending batch, those that were sent, and those that were sent and that
    // a power loss then put back into the buffer
    taken: seq<Row>,
    lent: seq<Row>,
    spent: seq<Row>,
    repeated: seq<Row>)

  /** The ways the client replaces its report state. */
  datatype Change =
    | Init(cursor: nat)
    | FromBuffer
    | FromCounters
    | CountFailure
    | Mark(next: nat, at: int, proof: Option<Reply>)
    | Rebase(conflict: Reply)
    | Advance(now: int)
    | Finish(now: int)
    | Drain(rows: seq<Row>)

  datatype Action =
    // environment
    | Log(uuid: string, uid: int, up: nat, down: nat)
    | Deliver(post: Batch)
    | Foreign(other: Batch)
    | Exit
    | PowerLoss(keepRename: bool)
    | WriteBack
    // client
    | Boot
    | Load
    | Rename(change: Change, dropHeld: bool)
    | SyncDirectory
    | TakeBuffer
    | Capture(rows: seq<Row>)
    | EndRound
    | Send
    | Commit
    | StartDrain
    | DrainDone

  // ---- views of client memory ----

  /** The state the file on disk was last replaced by. */
  function Latest(m: Mem): Option<ReportState> { if m.unsynced.Some? then m.unsynced else m.outbox }

  /** The pending rows whose bytes are still in this runtime's counters. */
  function LiveRows(m: Mem): seq<Row> {
    if Latest(m).Some? && Latest(m).value.pending.Some? && !m.recovered && !m.committed
    then Latest(m).value.pending.value.rows
    else []
  }

  predicate Ready(m: Mem) { m.outbox.Some? && m.unsynced.None? }

  predicate HasPending(m: Mem) { Ready(m) && m.outbox.value.pending.Some? }

  // ---- the drain ----

  /** The overlap with the pending batch is removed once per matching pending row. */
  function WithoutOverlap(r: Row, pending: seq<Row>): Row {
    if pending == [] then r
    else
      var q, p := WithoutOverlap(r, pending[..|pending| - 1]), pending[|pending| - 1];
      if q.uuid == p.uuid && q.uid == p.uid then q.(up := q.up - p.up, down := q.down - p.down) else q
  }

  function Tail(rows: seq<Row>, pending: seq<Row>): seq<Row> {
    if rows == [] then []
    else
      var before, r := Tail(rows[..|rows| - 1], pending), WithoutOverlap(rows[|rows| - 1], pending);
      if r.up + r.down > 0 then before + [EraseRow(r)] else before
  }

  predicate ConsistentTail(rows: seq<Row>, pending: seq<Row>) {
    forall r :: r in rows ==> ValidRow(WithoutOverlap(r, pending))
  }

  // ---- the next report state ----

  function NextState(m: Mem, c: Change, origin: nat): ReportState
    requires c.Init? || m.outbox.Some?
    requires c.Rebase? ==> c.conflict.Conflict?
    requires c.Rebase? || c.Advance? || c.Finish? ==> m.outbox.value.pending.Some?
    requires c.Finish? ==> m.outbox.value.resolution.Some?
  {
    match c
    case Init(cursor) => ReportState(1, cursor, None, [], 0, None, [])
    case FromBuffer =>
      var o := m.outbox.value;
      var p := Pick(o.buffered);
      ReportState(1, o.next, Some(Batch(o.next, p.selected, origin)), p.rest, 0, None, o.held)
    case FromCounters =>
      var o := m.outbox.value;
      ReportState(1, o.next, Some(Batch(o.next, Pick(m.queued).selected, origin)), [], 0, None, o.held)
    case CountFailure =>
      var o := m.outbox.value;
      o.(failures := if o.failures + 1 < 3 then o.failures + 1 else 3)
    case Mark(next, at, _) => m.outbox.value.(resolution := Some(Resolution(next, at)))
    case Rebase(conflict) =>
      var o := m.outbox.value;
      var b := o.pending.value;
      ReportState(1, conflict.next, Some(Batch(conflict.next, b.rows, b.origin)), o.buffered, o.failures, None, o.held)
    case Advance(now) =>
      var o := m.outbox.value;
      ReportState(1, Inc64(o.pending.value.sequence), None, o.buffered, 0, None, Trim(o.held, now))
    case Finish(now) =>
      var o := m.outbox.value;
      var hold := Hold(o.resolution.value.at, o.pending.value);
      ReportState(1, o.resolution.value.next, None, o.buffered, 0, None, Trim(o.held + [hold], now))
    case Drain(rows) =>
      m.outbox.value.(buffered := m.drainBase + Tail(rows, LiveRows(m)))
  }

  /** A batch may be marked when the panel's answer shows that the cursor is ahead, or after three
      failures, with a cursor that the panel has reported. */
  predicate MayMark(s: Sys, o: ReportState, next: nat, proof: Option<Reply>)
    requires o.pending.Some?
  {
    match proof
    case Some(r) => r in s.replies && CanIsolate(r, o.pending.value) && next == r.next
    case None => o.failures >= 3 && next <= |s.log| + 1
  }

  /** What the client has checked before it asks for a change. */
  predicate CanChange(s: Sys, m: Mem, c: Change) {
    && m.unsynced.None?
    && (!c.Drain? ==> !m.draining)
    && match c {
      case Init(cursor) => m.outbox.None? && s.visible.None? && 0 < cursor < TWO_64 && cursor <= |s.log| + 1
      case FromBuffer =>
        && Ready(m) && m.outbox.value.pending.None? && m.recovered && m.queued == []
        && m.outbox.value.buffered != [] && ValidRows(m.outbox.value.buffered)
      case FromCounters => Ready(m) && m.outbox.value.pending.None? && m.queued != [] && ValidRows(m.queued)
      case CountFailure => HasPending(m) && m.outbox.value.resolution.None? && s.posted
      case Mark(next, at, proof) =>
        && HasPending(m) && m.outbox.value.resolution.None? && 0 < next <= MAX_INT64 && 0 < at
        && MayMark(s, m.outbox.value, next, proof)
      case Rebase(conflict) =>
        && HasPending(m) && m.outbox.value.resolution.None? && !m.committed
        && conflict in s.replies && CanRebase(conflict, m.outbox.value.pending.value)
      case Advance(now) =>
        && HasPending(m) && m.outbox.value.resolution.None? && (m.committed || m.recovered)
        && Ack(m.outbox.value.pending.value.sequence, BodyOf(m.outbox.value.pending.value)) in s.replies
        && Inc64(m.outbox.value.pending.value.sequence) != 0
      case Finish(now) => HasPending(m) && m.outbox.value.resolution.Some? && (m.committed || m.recovered)
      case Drain(rows) =>
        && Ready(m) && m.draining && m.queued == [] && CompleteCapture(s.ram, rows)
        && ConsistentTail(rows, LiveRows(m))
        && |m.drainBase + Tail(rows, LiveRows(m))| <= MAX_BUFFERED_ROWS
    }
  }

  // ---- actions ----

  predicate Enabled(s: Sys, a: Action) {
    match a
    case Log(uuid, uid, up, down) =>
      // forwarding has stopped before the drain begins (node/controller.go:200-207)
      && s.client.Some? && !s.client.value.draining
      && uuid != "" && 0 < uid && (uuid in s.counted ==> s.counted[uuid].uid == uid)
    case Deliver(post) => post in s.posts
    case Foreign(other) => other.sequence == |s.log| + 1
    case Exit => true
    case PowerLoss(_) => true
    case WriteBack => true
    case Boot => s.client.None?
    case Load =>
      && s.client.Some? && s.client.value.outbox.None? && s.client.value.unsynced.None?
      && s.visible.Some? && Loadable(s.visible.value)
    case Rename(c, _) => s.client.Some? && CanChange(s, s.client.value, c)
    case SyncDirectory => s.client.Some? && s.client.value.unsynced.Some?
    case TakeBuffer =>
      && s.client.Some? && Ready(s.client.value) && !s.client.value.draining && s.client.value.queued == []
      && s.client.value.outbox.value.pending.None? && s.client.value.outbox.value.buffered != []
    case Capture(rows) =>
      && s.client.Some? && Ready(s.client.value) && !s.client.value.draining
      && s.client.value.outbox.value.pending.None? && s.client.value.outbox.value.buffered == []
      && Covered(s.ram, rows)
    case EndRound => s.client.Some?
    case Send =>
      && s.client.Some? && HasPending(s.client.value) && !s.client.value.draining
      && s.client.value.outbox.value.resolution.None?
    case Commit =>
      && s.client.Some? && HasPending(s.client.value) && !s.client.value.draining
      && !s.client.value.committed && !s.client.value.recovered
      && var o := s.client.value.outbox.value;
         o.resolution.Some? || Ack(o.pending.value.sequence, BodyOf(o.pending.value)) in s.replies
    case StartDrain =>
      s.client.Some? && Ready(s.client.value) && !s.client.value.draining && s.client.value.queued == []
    case DrainDone => s.client.Some? && Ready(s.client.value) && s.client.value.draining
  }

  function AddBytes(m: Counters, uuid: string, uid: int, up: nat, down: nat): Counters {
    m[uuid := if uuid in m then m[uuid].(up := m[uuid].up + up, down := m[uuid].down + down)
              else Row(uid, up, down, uuid)]
  }

  function MarkedBy(x: Option<ReportState>): set<nat> {
    if x.Some? && x.value.pending.Some? && x.value.resolution.Some? then {x.value.pending.value.origin} else {}
  }

  function DoDeliver(s: Sys, b: Batch): Sys {
    s.(log := Charge(s.log, b, true), replies := s.replies + {Answer(s.log, b)})
  }

  function DoPowerLoss(s: Sys, keep: bool): Sys {
    var x := if keep then s.visible else s.durable;
    s.(visible := x, durable := x, client := None, ram := map[], posted := false, marked := s.marked + MarkedBy(x),
       taken := [], lent := [], spent := [], repeated := if keep then s.repeated else s.repeated + s.spent)
  }

  function DoLoad(s: Sys): Sys
    requires Enabled(s, Load)
  {
    var x := s.visible.value;
    s.(client := Some(s.client.value.(outbox := Some(x), recovered := x.pending.Some?)))
  }

  function BufferOf(x: Option<ReportState>): seq<Row> { if x.Some? then x.value.buffered else [] }

  /** The rows of the durable file's buffer that no batch of a later file has taken. */
  function Owed(durable: Option<ReportState>, taken: seq<Row>): multiset<Row> {
    multiset(BufferOf(durable)) - multiset(taken)
  }

  function Among(rows: seq<Row>, owed: multiset<Row>): seq<Row> {
    if rows == [] then []
    else
      var before, r := Among(rows[..|rows| - 1], owed), rows[|rows| - 1];
      if r in owed then before + [r] else before
  }

  /** What a new batch takes of them. Its users are distinct, so it takes each row once. */
  function TakenBy(s: Sys, x: ReportState): seq<Row>
    requires x.pending.Some?
  {
    Among(EraseRows(x.pending.value.rows), Owed(s.durable, s.taken))
  }

  /** The rename: the new file is visible, not yet durable. */
  function DoRename(s: Sys, c: Change, dropHeld: bool): Sys
    requires Enabled(s, Rename(c, dropHeld))
  {
    var m := s.client.value;
    var x := NextState(m, c, |s.issued|);
    var y := if dropHeld then x.(held := []) else x;
    s.(visible := Some(Erase(y)),
       posted := false,
       client := Some(m.(unsynced := Some(y),
                         queued := if c.FromCounters? then Pick(m.queued).rest else m.queued)),
       issued := if c.FromBuffer? || c.FromCounters? then s.issued + [EraseRows(x.pending.value.rows)] else s.issued,
       taken := if c.FromBuffer? then s.taken + TakenBy(s, x) else s.taken,
       lent := if c.FromBuffer? then TakenBy(s, x) else if x.pending.None? || c.FromCounters? then [] else s.lent)
  }

  /** finishStateSync after the directory was synchronised. */
  function Synced(m: Mem): Mem
    requires m.unsynced.Some?
  {
    var idle := m.unsynced.value.pending.None?;
    m.(outbox := m.unsynced, unsynced := None,
       recovered := m.recovered && !idle, committed := m.committed && !idle)
  }

  function DoSync(s: Sys): Sys
    requires Enabled(s, SyncDirectory)
  {
    s.(durable := s.visible, client := Some(Synced(s.client.value)), marked := s.marked + MarkedBy(s.visible),
       taken := [], lent := [], spent := [])
  }

  /** The operating system makes the rename durable by itself. */
  function DoWriteBack(s: Sys): Sys {
    s.(durable := s.visible, marked := s.marked + MarkedBy(s.visible), taken := [], lent := [], spent := [])
  }

  function DoSend(s: Sys): Sys
    requires Enabled(s, Send)
  {
    var b := s.client.value.outbox.value.pending.value;
    s.(posts := s.posts + {EraseBatch(b)}, launched := s.launched + {b.origin}, posted := true,
       spent := if b.origin in s.launched then s.spent else s.spent + s.lent)
  }

  function DoCommit(s: Sys): Sys
    requires Enabled(s, Commit)
  {
    var m := s.client.value;
    s.(ram := SubtractRows(s.ram, m.outbox.value.pending.value.rows), client := Some(m.(committed := true)))
  }

  function Step(s: Sys, a: Action): Sys
    requires Enabled(s, a)
  {
    match a
    case Log(uuid, uid, up, down) =>
      s.(ram := AddBytes(s.ram, uuid, uid, up, down), counted := AddBytes(s.counted, uuid, uid, up, down))
    case Deliver(post) => DoDeliver(s, post)
    case Foreign(other) => s.(log := Charge(s.log, other, false))
    case Exit => s.(client := None, ram := map[], posted := false)
    case PowerLoss(keep) => DoPowerLoss(s, keep)
    case WriteBack => DoWriteBack(s)
    case Boot => s.(client := Some(FRESH_CLIENT))
    case Load => DoLoad(s)
    case Rename(c, dropHeld) => DoRename(s, c, dropHeld)
    case SyncDirectory => DoSync(s)
    case TakeBuffer => s.(client := Some(s.client.value.(recovered := true)))
    case Capture(rows) => s.(client := Some(s.client.value.(queued := rows)))
    case EndRound => s.(client := Some(s.client.value.(queued := [])))
    case Send => DoSend(s)
    case Commit => DoCommit(s)
    case StartDrain =>
      s.(client := Some(s.client.value.(draining := true, drainBase := s.client.value.outbox.value.buffered)))
    case DrainDone => s.(client := Some(s.client.value.(drainSaved := true)))
  }

  // ---- runs ----

  /** The rename of the current file has reached the disk. */
  predicate Settled(s: Sys) { s.visible == s.durable }

  /** The state after a sequence of actions, or None if one of them was not possible. */
  function Exec(s: Sys, acts: seq<Action>): Option<Sys> {
    if acts == [] then Some(s)
    else
      var before := Exec(s, acts[..|acts| - 1]);
      if before.Some? && Enabled(before.value, acts[|acts| - 1])
      then Some(Step(before.value, acts[|acts| - 1]))
      else None
  }

  /** A node that was never started: no file, no counters; others may have used the panel. */
  predicate Initial(s: Sys) {
    && s.posts == {} && s.replies == {}
    && s.visible == None && s.durable == None && s.client == None
    && s.ram == map[] && !s.posted && s.counted == map[] && s.issued == [] && s.launched == {} && s.marked == {}
    && s.taken == [] && s.lent == [] && s.spent == [] && s.repeated == []
    && forall i :: 0 <= i < |s.log| ==> !s.log[i].mine && s.log[i].batch.sequence == i + 1
  }
}
