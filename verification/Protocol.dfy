/**
 The vocabulary shared by the server and the agent: execution statuses and the
 table of legal execution transitions, delivery and control states, and the
 messages of the command channel. Identifiers are trimmed strings, as both sides
 trim them before comparing.
 */
module Protocol {
  import opened Basics

  type NodeId = string
  type JobId = string
  type StreamId = string
  type Hash = string

  /** The execution dimension of an update target. */
  datatype Status =
    | Pending | Dispatched
    | Accepted | Downloading | Verifying | Restarting
    | Succeeded | Failed | Unknown | Timeout | Cancelled | OfflineSkipped

  /** The delivery dimension, owned by the server. */
  datatype Delivery = DeliveryPending | Sending | Sent | SendFailed

  datatype Control = Open | Quarantined | Blocked

  datatype JobStatus = JobPending | JobRunning | JobCompleted | JobFailed | JobPartialFailed

  datatype Reject = SequenceGap | Expired | AlreadyProcessed | ControlQuarantined | ControlBlocked

  datatype Command = Command(jobId: JobId, targetVersion: string, sha: Hash, streamId: StreamId, number: int)

  datatype InProgressReport = InProgressReport(jobId: JobId, number: int, stage: Status)

  datatype RecordReport = RecordReport(jobId: JobId, number: int, status: Status, reportedVersion: string)

  datatype Handshake = Handshake(
    streamId: StreamId, watermark: int, control: Control,
    inProgress: Option<InProgressReport>, records: seq<RecordReport>)

  datatype Ack = Ack(streamId: StreamId, nextSeq: int, watermark: int, control: Control)

  /** A status report: either a rejection code or an execution status. */
  datatype StatusReport = StatusReport(
    jobId: JobId, status: Status, reportedVersion: string,
    streamId: StreamId, number: int, watermark: int, reject: Option<Reject>)

  predicate Terminal(s: Status) {
    s.Succeeded? || s.Failed? || s.Unknown? || s.Timeout? || s.Cancelled? || s.OfflineSkipped?
  }

  predicate InProgress(s: Status) {
    s.Accepted? || s.Downloading? || s.Verifying? || s.Restarting?
  }

  /** The table of legal moves between different execution statuses. */
  function Successors(s: Status): seq<Status> {
    match s
    case Pending =>
      [Dispatched, Accepted, Downloading, Verifying, Restarting,
       Succeeded, Failed, Unknown, Timeout, Cancelled, OfflineSkipped]
    case Dispatched =>
      [Accepted, Downloading, Verifying, Restarting, Succeeded, Failed, Unknown, Timeout, Cancelled]
    case Accepted => [Downloading, Succeeded, Failed, Unknown, Timeout, Cancelled]
    case Downloading => [Verifying, Succeeded, Failed, Unknown, Timeout, Cancelled]
    case Verifying => [Restarting, Succeeded, Failed, Unknown, Timeout, Cancelled]
    case Restarting => [Succeeded, Failed, Unknown, Timeout, Cancelled]
    case Succeeded | Failed | Unknown | Timeout | Cancelled | OfflineSkipped => []
  }

  /** A report is committed when it repeats the status or follows the table. */
  predicate CanMove(current: Status, next: Status) {
    current == next || next in Successors(current)
  }

  /** The lookup loop over a row of the table. */
  method TransitionAllowed(current: Status, next: Status) returns (allowed: bool)
    ensures allowed <==> CanMove(current, next)
  {
    if current == next {
      return true;
    }
    allowed := Listed(Successors(current), next);
  }

  method Listed(candidates: seq<Status>, next: Status) returns (found: bool)
    ensures found <==> next in candidates
  {
    for i := 0 to |candidates|
      invariant next !in candidates[..i]
    {
      if candidates[i] == next {
        return true;
      }
    }
    return false;
  }

  /** Dispositions an operator may choose for an unknown outcome. */
  function StageOf(s: Status): int {
    match s
    case Accepted => 1
    case Downloading => 2
    case Verifying => 3
    case Restarting => 4
    case _ => 0
  }

  /** The table as a rule: an agent's outcome is legal from everything unfinished; a stage is legal before the agent
      has started and from the stage just before it; marking as dispatched or skipped is legal for a pending target
      only. */
  lemma MovesExactly(current: Status, next: Status)
    requires current != next
    ensures CanMove(current, next) <==>
      && !Terminal(current)
      && (next in {Succeeded, Failed, Unknown, Timeout, Cancelled}
          || (next in {Dispatched, OfflineSkipped} && current == Pending)
          || (InProgress(next) && (current in {Pending, Dispatched} || StageOf(next) == StageOf(current) + 1)))
  {
  }

  predicate Resolution(s: Status) {
    s.Succeeded? || s.Failed? || s.Cancelled?
  }

  /** The only ways a stored status may change: a legal report, or the disposition of an unknown. */
  predicate LegalChange(current: Status, next: Status) {
    CanMove(current, next) || (current == Unknown && Resolution(next))
  }

  function Rank(s: Status): nat {
    match s
    case Pending => 0
    case Dispatched => 1
    case Accepted => 2
    case Downloading => 3
    case Verifying => 4
    case Restarting => 5
    case Unknown => 6
    case Succeeded | Failed | Timeout | Cancelled | OfflineSkipped => 7
  }

  /** Every real change climbs, terminals are left only by disposing an unknown, and the
      "dispatched" marker is entered only from pending. */
  lemma ChangeClimbs(current: Status, next: Status)
    requires LegalChange(current, next) && current != next
    ensures Rank(current) < Rank(next)
    ensures Terminal(current) ==> current == Unknown && Resolution(next)
    ensures next == Dispatched ==> current == Pending
  {
  }

  function Changes(history: seq<Status>): nat {
    if |history| < 2 then 0
    else (if history[0] != history[1] then 1 else 0) + Changes(history[1..])
  }

  /** Whatever is reported and disposed, a target changes status at most seven times. */
  lemma {:induction false} AtMostSevenChanges(history: seq<Status>)
    requires |history| > 0
    requires forall i :: 0 <= i < |history| - 1 ==> LegalChange(history[i], history[i + 1])
    ensures Changes(history) + Rank(history[0]) <= Rank(history[|history| - 1])
    ensures Changes(history) <= 7
  {
    if |history| > 1 {
      AtMostSevenChanges(history[1..]);
      assert LegalChange(history[0], history[1]);
      if history[0] != history[1] {
        ChangeClimbs(history[0], history[1]);
      }
    }
  }

  /** Seven is reached: the bound is exact. */
  lemma SevenChangesHappen() returns (history: seq<Status>)
    ensures |history| > 0
    ensures forall i :: 0 <= i < |history| - 1 ==> LegalChange(history[i], history[i + 1])
    ensures Changes(history) == 7
  {
    history := [Pending, Dispatched, Accepted, Downloading, Verifying, Restarting, Unknown, Succeeded];
    assert Changes(history[6..]) == 1;
    assert Changes(history[5..]) == 2;
    assert Changes(history[4..]) == 3;
    assert Changes(history[3..]) == 4;
    assert Changes(history[2..]) == 5;
    assert Changes(history[1..]) == 6;
  }

  /** Every outcome an agent can report is accepted from every non-terminal status. */
  lemma OutcomeAlwaysAccepted(current: Status, outcome: Status)
    requires Terminal(outcome) && outcome != OfflineSkipped
    ensures !Terminal(current) ==> CanMove(current, outcome)
    ensures Terminal(current) ==> (CanMove(current, outcome) <==> current == outcome)
  {
  }
}
