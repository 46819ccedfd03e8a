/**
 The agent's collector as an object: the protocol state in memory and its copy
 on disk, updated step by step. Every method is tied to the effect defined in
 AgentProtocol.
 */
module CollectorModel {
  import opened Basics
  import opened Protocol
  import opened AgentLaws
  import opened AgentProtocol

  /** The state file: missing on a fresh install, or unreadable or corrupted, or holding a state. */
  datatype StateFile = Missing | Damaged | Held(state: State)

  /** Saving replaces the file at once or, when a write fails, not at all; a quarantined state is never saved. */
  function SavedTo(s: State, file: StateFile, writes: bool): StateFile {
    if writes && s.control != Quarantined then Held(s) else file
  }

  /** What a start makes of the file: damage is never repaired, and isolates the agent. */
  function Loaded(file: StateFile, digest: Option<Hash>): State {
    match file
    case Missing => EMPTY_STATE
    case Damaged => EMPTY_STATE.(control := Quarantined)
    case Held(s) => Recover(s, digest)
  }

  method FindRecord(records: seq<Record>, key: Key) returns (i: nat)
    ensures i == IndexOf(records, key)
  {
    i := 0;
    while i < |records|
      invariant 0 <= i <= |records|
      invariant IndexOf(records, key) == i + IndexOf(records[i..], key)
    {
      if records[i].key == key {
        return;
      }
      assert records[i..][1..] == records[i + 1..];
      i := i + 1;
    }
  }

  method AppendRecord(records: seq<Record>, record: Record) returns (result: seq<Record>)
    ensures result == Put(records, record)
  {
    var i := FindRecord(records, record.key);
    if i < |records| {
      return records[i := record];
    }
    result := records + [record];
    if |result| > RECORD_WINDOW {
      result := result[|result| - RECORD_WINDOW..];
    }
  }

  method DropRecords(records: seq<Record>, key: Key) returns (kept: seq<Record>)
    ensures kept == Without(records, key)
  {
    kept := [];
    var i := 0;
    while i < |records|
      invariant 0 <= i <= |records|
      invariant kept == Without(records[..i], key)
    {
      assert records[..i + 1][..i] == records[..i];
      if records[i].key != key {
        kept := kept + [records[i]];
      }
      i := i + 1;
    }
    assert records[..i] == records;
  }

  class Collector {
    var state: State
    var disk: StateFile
    var executing: bool // an update is running and has a context to cancel
    var cancelled: bool // that context is cancelled

    /** Load the file and resolve a task left in it by a crash. */
    constructor Load(file: StateFile, digest: Option<Hash>, writes: bool)
      ensures state == Loaded(file, digest)
      ensures disk == if file.Held? then SavedTo(state, file, writes) else file
      ensures file.Missing? ==> state == State("", 0, None, [], Open)
      ensures file.Damaged? ==> state == State("", 0, None, [], Quarantined)
      ensures file.Held? && file.state.task.None? ==> state == file.state
      ensures file.Held? && file.state.task.Some? && AgentOk(file.state) ==>
        state.task.None? && Concludes(state.records, file.state.task.value, digest)
      ensures !executing
    {
      state := EMPTY_STATE;
      disk := file;
      executing, cancelled := false, false;
      new;
      if file.Held? && file.state.task.Some? && AgentOk(file.state) { RecoverConcludes(file.state, digest); }
      match file {
        case Missing =>
        case Damaged => state := state.(control := Quarantined);
        case Held(s) =>
          state := s;
          RecoverInProgress(digest, writes);
      }
    }

    method Save(writes: bool) returns (ok: bool)
      modifies this`disk
      ensures disk == SavedTo(state, old(disk), writes)
      ensures writes && state.control != Quarantined ==> disk == Held(state)
      ensures !writes || state.control == Quarantined ==> disk == old(disk)
      ensures ok <==> writes || state.control == Quarantined
    {
      if state.control == Quarantined {
        return true;
      }
      if writes {
        disk := Held(state);
      }
      return writes;
    }

    method RecoverInProgress(digest: Option<Hash>, writes: bool)
      modifies this`state, this`disk
      ensures state == Recover(old(state), digest)
      ensures old(state).task.None? ==> state == old(state)
      ensures old(state).task.Some? && AgentOk(old(state)) ==>
        state.task.None? && Concludes(state.records, old(state).task.value, digest)
      ensures disk == if old(state).task.Some? then SavedTo(state, old(disk), writes) else old(disk)
    {
      if state.task.Some? && AgentOk(state) { RecoverConcludes(state, digest); }
      if state.task.None? {
        return;
      }
      var t := state.task.value;
      var records;
      if t.commitPoint {
        if digest.Some? && digest.value == t.sha {
          records := AppendRecord(state.records, Record(t.key, t.number, t.jobId, Succeeded, "", t.sha));
        } else {
          records := AppendRecord(state.records, Record(t.key, t.number, t.jobId, Unknown, "", t.sha));
          state := state.(control := Blocked);
        }
      } else {
        var status := Failed;
        if t.cancelIntent {
          status := Cancelled;
        }
        records := AppendRecord(state.records, Record(t.key, t.number, t.jobId, status, "", ""));
      }
      state := state.(records := records);
      if t.number > state.watermark {
        state := state.(watermark := t.number);
      }
      state := state.(task := None);
      var saved := Save(writes);
    }

    method HandshakePayload() returns (payload: Handshake)
      ensures payload == HandshakeOf(state)
    {
      var inProgress := None;
      if state.task.Some? {
        var t := state.task.value;
        inProgress := Some(InProgressReport(t.jobId, t.number, t.stage));
      }
      var records := [];
      for i := 0 to |state.records|
        invariant records == ReportsOf(state.records[..i])
      {
        assert state.records[..i + 1] == state.records[..i] + [state.records[i]];
        records := records + [ReportOf(state.records[i])];
      }
      assert state.records[..|state.records|] == state.records;
      payload := Handshake(state.streamId, state.watermark, state.control, inProgress, records);
    }

    method ApplyHandshakeAck(ack: Ack, writes: bool)
      modifies this`state, this`disk
      ensures state == ApplyAck(old(state), ack)
      ensures state.task == old(state).task && state.records == old(state).records
      ensures ack.control == Open && Agree(old(state), ack) ==>
        && ack.watermark <= state.watermark && old(state).watermark <= state.watermark
        && (state.watermark == ack.watermark || state.watermark == old(state).watermark)
        && state.streamId == (if old(state).streamId == "" then ack.streamId else old(state).streamId)
        && (state.control == Open <==> old(state).control != Quarantined)
      ensures !(ack.control == Open && Agree(old(state), ack)) ==>
        && state.control == (if ack.control == Blocked then Blocked else Quarantined)
        && state.watermark == old(state).watermark && state.streamId == old(state).streamId
      ensures disk == SavedTo(state, old(disk), writes)
    {
      if ack.control == Quarantined {
        state := state.(control := Quarantined);
        var saved := Save(writes);
        return;
      }
      if ack.control == Blocked {
        state := state.(control := Blocked);
        var saved := Save(writes);
        return;
      }
      if ack.streamId != "" {
        if state.streamId == "" {
          state := state.(streamId := ack.streamId);
        } else if state.streamId != ack.streamId {
          state := state.(control := Quarantined);
          var saved := Save(writes);
          return;
        }
      }
      if ack.watermark > state.watermark {
        state := state.(watermark := ack.watermark);
      }
      if state.control == Blocked {
        state := state.(control := Open);
      }
      var saved := Save(writes);
    }

    /** Admission control, and the durable accepted record written before any side effect. */
    method BeginUpdateTask(cmd: Command, writes: bool) returns (admission: Admission)
      modifies this`state, this`disk
      ensures admission == Admit(old(state), cmd)
      ensures state == Begin(old(state), cmd)
      ensures disk == if admission == Admitted then SavedTo(state, old(disk), writes) else old(disk)
    {
      var key := KeyOf(cmd);
      if state.control == Quarantined {
        return Rejected(ControlQuarantined);
      }
      if state.control == Blocked {
        return Rejected(ControlBlocked);
      }
      if cmd.number > 0 && (state.streamId == "" || cmd.streamId != state.streamId) {
        state := state.(control := Quarantined);
        var saved := Save(writes);
        return Rejected(ControlQuarantined);
      }
      var i := FindRecord(state.records, key);
      if cmd.number > 0 {
        if cmd.number < state.watermark {
          return Rejected(Expired);
        }
        if cmd.number == state.watermark {
          if i < |state.records| {
            return Replayed(state.records[i]);
          }
          return Rejected(AlreadyProcessed);
        }
        if cmd.number > state.watermark + 1 {
          return Rejected(SequenceGap);
        }
      }
      if i < |state.records| {
        return Replayed(state.records[i]);
      }
      if state.task.Some? {
        var t := state.task.value;
        if t.key == key {
          return Replayed(Record(t.key, t.number, t.jobId, t.stage, t.targetVersion, t.sha));
        }
        return Busy;
      }
      var task := Task(key, cmd.number, cmd.jobId, Accepted, cmd.targetVersion, cmd.sha, false, false);
      var records := AppendRecord(state.records, Record(key, cmd.number, cmd.jobId, Accepted, "", cmd.sha));
      state := state.(task := Some(task), records := records);
      var saved := Save(writes);
      return Admitted;
    }

    /** The answer to a command: none when a task was started. A command of another kind changes nothing. */
    method DispatchAgentCommand(cmd: Command, supported: bool, writes: bool) returns (reply: Option<StatusReport>)
      modifies this`state, this`disk
      ensures !supported ==> state == old(state) && disk == old(disk)
                             && reply == Some(StatusReport(cmd.jobId, Failed, "", "", 0, 0, None))
      ensures supported ==> state == Begin(old(state), cmd) && reply == ReplyTo(old(state), cmd)
      ensures supported ==>
        match Admit(old(state), cmd)
        case Admitted => reply == None
        case Replayed(r) =>
          && reply.Some? && reply.value.reject == None && reply.value.jobId == r.jobId && reply.value.number == r.number
          && reply.value.status == r.status && reply.value.reportedVersion == r.reportedVersion
          && reply.value.streamId == old(state).streamId && reply.value.watermark == old(state).watermark
        case answer =>
          && reply.Some? && reply.value.jobId == cmd.jobId && reply.value.number == cmd.number
          && reply.value.streamId == old(state).streamId && reply.value.watermark == old(state).watermark
          && (answer.Busy? ==> reply.value.reject == None && reply.value.status == Failed)
          && (answer.Rejected? ==> reply.value.reject == Some(answer.code))
      ensures disk == if supported && Admit(old(state), cmd) == Admitted
                      then SavedTo(state, old(disk), writes) else old(disk)
    {
      if !supported {
        return Some(StatusReport(cmd.jobId, Failed, "", "", 0, 0, None));
      }
      var admission := BeginUpdateTask(cmd, writes);
      match admission {
        case Admitted => reply := None;
        case Replayed(r) =>
          reply := Some(StatusReport(r.jobId, r.status, r.reportedVersion, state.streamId, r.number, state.watermark,
                                     None));
        case Rejected(code) =>
          reply := Some(StatusReport(cmd.jobId, Pending, "", state.streamId, cmd.number, state.watermark, Some(code)));
        case Busy =>
          reply := Some(StatusReport(cmd.jobId, Failed, "", state.streamId, cmd.number, state.watermark, None));
      }
    }

    method UpdateTaskProgress(stage: Status, writes: bool)
      modifies this`state, this`disk
      ensures state == Progress(old(state), stage)
      ensures disk == if ProgressSaves(old(state)) then SavedTo(state, old(disk), writes) else old(disk)
    {
      if state.task.None? {
        return;
      }
      var t := state.task.value.(stage := stage);
      state := state.(task := Some(t));
      var i := FindRecord(state.records, t.key);
      if i == |state.records| {
        return;
      }
      var record := state.records[i].(status := stage);
      if t.targetVersion != "" {
        record := record.(reportedVersion := t.targetVersion);
      }
      state := state.(records := state.records[i := record]);
      var saved := Save(writes);
    }

    method FinishUpdateTask(status: Status, writes: bool)
      modifies this`state, this`disk
      ensures state == Finish(old(state), status)
      ensures disk == if old(state).task.Some? then SavedTo(state, old(disk), writes) else old(disk)
    {
      if state.task.None? {
        return;
      }
      var t := state.task.value;
      var record := Record(t.key, t.number, t.jobId, status, "", t.sha);
      if status != Cancelled && t.targetVersion != "" {
        record := record.(reportedVersion := t.targetVersion);
      }
      var records := AppendRecord(state.records, record);
      state := state.(records := records);
      if status == Unknown {
        state := state.(control := Blocked);
      }
      if t.number > 0 && status != Accepted {
        if t.number > state.watermark {
          state := state.(watermark := t.number);
        }
      }
      state := state.(task := None);
      var saved := Save(writes);
    }

    method AbortUpdateTask(cmd: Command, writes: bool)
      modifies this`state, this`disk
      ensures state == Abort(old(state), cmd)
      ensures disk == if Aborts(old(state), cmd) then SavedTo(state, old(disk), writes) else old(disk)
    {
      var key := KeyOf(cmd);
      if state.task.None? || state.task.value.key != key {
        return;
      }
      state := state.(task := None);
      var kept := DropRecords(state.records, key);
      state := state.(records := kept);
      var saved := Save(writes);
    }

    /** The commit point is taken only if it could be saved. */
    method MarkCommitPoint(writes: bool) returns (ok: bool)
      modifies this`state, this`disk
      ensures ok <==> old(state).task.Some? && (writes || old(state).control == Quarantined)
      ensures state == MarkCommit(old(state))
      ensures disk == if old(state).task.Some? then SavedTo(state, old(disk), writes) else old(disk)
    {
      if state.task.None? {
        return false;
      }
      state := state.(task := Some(state.task.value.(commitPoint := true)));
      ok := Save(writes);
    }

    /** A cancel request reaches a matching task before its commit point, and is refused after it. It stops an
        executor that is running; one that has not started yet is not told, although the answer is the same. */
    method HandleCancelRequest(job: JobId, number: int, writes: bool) returns (reply: StatusReport)
      modifies this`state, this`disk, this`cancelled
      ensures var s := old(state);
        var found := s.task.Some? && (number > 0 ==> s.task.value.number == number)
                     && (job != "" ==> s.task.value.jobId == job);
        && (found <==> reply.reject == None)
        && (found && !s.task.value.commitPoint ==>
              state == s.(task := Some(s.task.value.(cancelIntent := true))) && reply.status == Cancelled)
        && (found && s.task.value.commitPoint ==> state == s && reply.status == Restarting)
        && (!found ==> state == s && reply.reject == Some(AlreadyProcessed))
      ensures disk == if CancelReaches(old(state), job, number) then SavedTo(state, old(disk), writes) else old(disk)
      ensures cancelled == (old(cancelled) || (executing && CancelReaches(old(state), job, number)))
      ensures reply == if !CancelMatches(old(state), job, number)
                       then StatusReport(job, Pending, "", state.streamId, number, state.watermark,
                                         Some(AlreadyProcessed))
                       else StatusReport(job, if CancelReaches(old(state), job, number) then Cancelled else Restarting,
                                         "", state.streamId, number, state.watermark, None)
    {
      if state.task.None?
         || (number > 0 && state.task.value.number != number)
         || (job != "" && state.task.value.jobId != job) {
        return StatusReport(job, Pending, "", state.streamId, number, state.watermark, Some(AlreadyProcessed));
      }
      if state.task.value.commitPoint {
        return StatusReport(job, Restarting, "", state.streamId, number, state.watermark, None);
      }
      state := state.(task := Some(state.task.value.(cancelIntent := true)));
      var saved := Save(writes);
      if executing {
        cancelled := true;
      }
      return StatusReport(job, Cancelled, "", state.streamId, number, state.watermark, None);
    }
  }

  /** What the agent answers: a replay repeats the record, and a refusal names the command's own sequence, the
      agent's stream and its watermark. */
  function ReplyTo(s: State, cmd: Command): Option<StatusReport> {
    match Admit(s, cmd)
    case Admitted => None
    case Replayed(r) =>
      Some(StatusReport(r.jobId, r.status, r.reportedVersion, s.streamId, r.number, s.watermark, None))
    case Rejected(code) =>
      Some(StatusReport(cmd.jobId, Pending, "", s.streamId, cmd.number, s.watermark, Some(code)))
    case Busy =>
      Some(StatusReport(cmd.jobId, Failed, "", s.streamId, cmd.number, s.watermark, None))
  }

  predicate Aborts(s: State, cmd: Command) {
    s.task.Some? && s.task.value.key == KeyOf(cmd)
  }

  predicate CancelMatches(s: State, job: JobId, number: int) {
    s.task.Some? && (number > 0 ==> s.task.value.number == number) && (job != "" ==> s.task.value.jobId == job)
  }

  predicate CancelReaches(s: State, job: JobId, number: int) {
    CancelMatches(s, job, number) && !s.task.value.commitPoint
  }
}
