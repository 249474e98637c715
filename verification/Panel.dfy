/** The accounting contract of the remote panel (docs/panel-contract.md, "Accounting") and the
    client's reading of its answers (api/v2board/traffic_conflict.go, traffic_isolation.go). */
module Panel {
  import opened Options
  import opened TrafficTypes

  /** One accepted report. `mine` tells this node's reports from those of another writer. */
  datatype Entry = Entry(batch: Batch, mine: bool)

  /** Answers to a traffic POST. A digest is modelled by the body it identifies; None is the
      empty digest of a panel that has accepted nothing. */
  datatype Reply =
    | Ack(sequence: nat, digest: Body)
    | Conflict(sequence: nat, current: Option<Body>, next: nat, requestSequence: nat, requestDigest: Body)

  /** The per-node cursor is the number of reports accepted so far. */
  function LastBody(log: seq<Entry>): Option<Body> {
    if log == [] then None else Some(BodyOf(log[|log| - 1].batch))
  }

  /** Only the next sequence number is charged. */
  function Charge(log: seq<Entry>, b: Batch, mine: bool): seq<Entry> {
    if b.sequence == |log| + 1 then log + [Entry(b, mine)] else log
  }

  /** The next sequence and an exact replay of the last one are acknowledged, the rest is a conflict. */
  function Answer(log: seq<Entry>, b: Batch): Reply {
    if b.sequence == |log| + 1 || (b.sequence == |log| && LastBody(log) == Some(BodyOf(b)))
    then Ack(b.sequence, BodyOf(b))
    else Conflict(|log|, LastBody(log), |log| + 1, b.sequence, BodyOf(b))
  }

  /** The panel has given this sequence to a report other than `rows`. */
  predicate TakenAt(log: seq<Entry>, rows: seq<Row>, sequence: nat) {
    0 < sequence <= |log| && BodyOf(log[sequence - 1].batch) != Body(sequence, rows)
  }

  // ---- the client's checks ----

  /** validateTrafficAck on an answer that names no invalid user. */
  predicate AckMatches(r: Reply, b: Batch) {
    r.Ack? && r.sequence == b.sequence && r.digest == BodyOf(b)
  }

  predicate CanRebase(r: Reply, b: Batch) {
    && r.Conflict?
    && r.sequence == b.sequence && r.requestSequence == b.sequence
    && r.requestDigest == BodyOf(b) && r.current.Some? && r.current != Some(BodyOf(b))
    && r.next == Inc64(b.sequence) && r.next != 0 && r.next <= MAX_INT64
  }

  predicate CanIsolate(r: Reply, b: Batch) {
    && r.Conflict?
    && r.sequence > b.sequence && r.next == Inc64(r.sequence) && r.next <= MAX_INT64 && r.next != 0
    && r.current.Some? && r.requestSequence == b.sequence && r.requestDigest == BodyOf(b)
  }

  // ---- what an answer proves, now and for ever ----

  /** The answer agrees with what the panel has accepted. */
  predicate Truthful(log: seq<Entry>, r: Reply) {
    match r
    case Ack(sequence, digest) =>
      0 < sequence <= |log| && BodyOf(log[sequence - 1].batch) == digest
    case Conflict(sequence, current, _, _, _) =>
      sequence <= |log| && (0 < sequence ==> current == Some(BodyOf(log[sequence - 1].batch)))
  }

  lemma AnswersAreTruthful(log: seq<Entry>, b: Batch, mine: bool)
    ensures b.sequence > 0 ==> Truthful(Charge(log, b, mine), Answer(log, b))
  {
  }

  lemma TruthIsStable(log: seq<Entry>, more: seq<Entry>, r: Reply)
    requires Truthful(log, r)
    ensures Truthful(log + more, r)
  {
  }

  /** An exact sequence collision proves that this batch was not, and will never be, charged there. */
  lemma RebaseIsProof(log: seq<Entry>, r: Reply, b: Batch)
    requires Truthful(log, r) && CanRebase(r, b) && 0 < b.sequence
    ensures TakenAt(log, EraseRows(b.rows), b.sequence)
  {
  }

  /** What the panel's own answer to a report tells the client: the report is accepted here or was the
      last one; or another report holds exactly this sequence, and the batch may be rebased and not
      isolated; or the cursor is further ahead, and it may be isolated and not rebased; or the report is
      ahead of the cursor, and neither is allowed. */
  lemma AnswerDecides(log: seq<Entry>, b: Batch)
    requires forall i :: 0 <= i < |log| ==> log[i].batch.sequence == i + 1
    requires 0 < b.sequence && |log| < MAX_INT64
    ensures var r := Answer(log, b);
            && (AckMatches(r, b) <==>
                  b.sequence == |log| + 1 || (b.sequence == |log| && !TakenAt(log, EraseRows(b.rows), b.sequence)))
            && (CanRebase(r, b) <==> b.sequence == |log| && TakenAt(log, EraseRows(b.rows), b.sequence))
            && (CanIsolate(r, b) <==> b.sequence < |log|)
  {
  }
}
