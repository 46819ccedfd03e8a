/**
 The agent's durable protocol state and the effect on it of every operation:
 admission, progress, outcome, abort, acknowledgement, commit point and the
 recovery of a task left by a crash. Hashes are compared after trimming and
 lower-casing, so they are taken here in that form.
 */
module AgentProtocol {
  import opened Basics
  import opened Protocol

  /** Deduplication keys: by sequence, by job for unsequenced commands, by hash for auto-update. */
  datatype Key = Sequenced(number: int) | ByJob(job: JobId) | ByHash(sha: Hash)

  datatype Record = Record(key: Key, number: int, jobId: JobId, status: Status, reportedVersion: string, sha: Hash)

  datatype Task = Task(
    key: Key, number: int, jobId: JobId, stage: Status, targetVersion: string, sha: Hash,
    commitPoint: bool, cancelIntent: bool)

  datatype State = State(streamId: StreamId, watermark: int, task: Option<Task>, records: seq<Record>, control: Control)

  const EMPTY_STATE := State("", 0, None, [], Open)

  /** How many execution records the agent keeps. */
  const RECORD_WINDOW := 1024

  function KeyOf(cmd: Command): Key {
    if cmd.number > 0 then Sequenced(cmd.number)
    else if cmd.jobId != "" && cmd.jobId != "auto-update" then ByJob(cmd.jobId)
    else ByHash(cmd.sha)
  }

  /** The position of the first record with the key, or the number of records. */
  function IndexOf(records: seq<Record>, key: Key): (i: nat)
    ensures i <= |records|
    ensures i < |records| ==> records[i].key == key
    ensures forall k :: 0 <= k < i ==> records[k].key != key
  {
    if records == [] || records[0].key == key then 0 else 1 + IndexOf(records[1..], key)
  }

  function Find(records: seq<Record>, key: Key): Option<Record> {
    var i := IndexOf(records, key);
    if i < |records| then Some(records[i]) else None
  }

  function Newest(records: seq<Record>): seq<Record> {
    if |records| > RECORD_WINDOW then records[|records| - RECORD_WINDOW..] else records
  }

  /** Replace the record with the same key, or append it and keep the newest. */
  function Put(records: seq<Record>, record: Record): seq<Record> {
    var i := IndexOf(records, record.key);
    if i < |records| then records[i := record] else Newest(records + [record])
  }

  function Without(records: seq<Record>, key: Key): (kept: seq<Record>)
    ensures forall r :: r in kept <==> r in records && r.key != key
  {
    if records == [] then []
    else if records[|records| - 1].key == key then Without(records[..|records| - 1], key)
    else Without(records[..|records| - 1], key) + [records[|records| - 1]]
  }

  /** A quarantined state is never written over the file. */
  function Saved(s: State, disk: State): State {
    if s.control == Quarantined then disk else s
  }

  datatype Admission = Admitted | Replayed(record: Record) | Rejected(code: Reject) | Busy

  /** The verdict of the admission control, which looks at the state only. */
  function Admit(s: State, cmd: Command): Admission {
    var key := KeyOf(cmd);
    if s.control == Quarantined then Rejected(ControlQuarantined)
    else if s.control == Blocked then Rejected(ControlBlocked)
    else if cmd.number > 0 && (s.streamId == "" || cmd.streamId != s.streamId) then Rejected(ControlQuarantined)
    else if cmd.number > 0 && cmd.number < s.watermark then Rejected(Expired)
    else if cmd.number > 0 && cmd.number == s.watermark then
      match Find(s.records, key)
      case Some(record) => Replayed(record)
      case None => Rejected(AlreadyProcessed)
    else if cmd.number > 0 && cmd.number > s.watermark + 1 then Rejected(SequenceGap)
    else
      match Find(s.records, key)
      case Some(record) => Replayed(record)
      case None =>
        match s.task
        case Some(t) =>
          if t.key == key then Replayed(Record(t.key, t.number, t.jobId, t.stage, t.targetVersion, t.sha)) else Busy
        case None => Admitted
  }

  predicate StreamMismatch(s: State, cmd: Command) {
    s.control == Open && cmd.number > 0 && (s.streamId == "" || cmd.streamId != s.streamId)
  }

  function AdmittedState(s: State, cmd: Command): State {
    s.(task := Some(Task(KeyOf(cmd), cmd.number, cmd.jobId, Accepted, cmd.targetVersion, cmd.sha, false, false)),
       records := Put(s.records, Record(KeyOf(cmd), cmd.number, cmd.jobId, Accepted, "", cmd.sha)))
  }

  function Begin(s: State, cmd: Command): State {
    if StreamMismatch(s, cmd) then s.(control := Quarantined)
    else if Admit(s, cmd) == Admitted then AdmittedState(s, cmd)
    else s
  }

  /** A stage change is written to the task and to its record; without a record it stays unsaved. */
  function Progress(s: State, stage: Status): State {
    if s.task.None? then s
    else
      var t := s.task.value;
      var s1 := s.(task := Some(t.(stage := stage)));
      var i := IndexOf(s.records, t.key);
      if i == |s.records| then s1
      else
        var record := s.records[i];
        s1.(records := s.records[i := record.(status := stage,
          reportedVersion := if t.targetVersion != "" then t.targetVersion else record.reportedVersion)])
  }

  predicate ProgressSaves(s: State) {
    s.task.Some? && Find(s.records, s.task.value.key).Some?
  }

  function OutcomeRecord(t: Task, status: Status): Record {
    Record(t.key, t.number, t.jobId, status,
           if status != Cancelled && t.targetVersion != "" then t.targetVersion else "", t.sha)
  }

  /** The durable outcome of the task. */
  function Finish(s: State, status: Status): State {
    if s.task.None? then s
    else
      var t := s.task.value;
      s.(records := Put(s.records, OutcomeRecord(t, status)),
         control := if status == Unknown then Blocked else s.control,
         watermark := if t.number > 0 && status != Accepted then Max(s.watermark, t.number) else s.watermark,
         task := None)
  }

  /** Undo an admission that could not be reported. */
  function Abort(s: State, cmd: Command): State {
    if s.task.None? || s.task.value.key != KeyOf(cmd) then s
    else s.(task := None, records := Without(s.records, KeyOf(cmd)))
  }

  function MarkCommit(s: State): State {
    if s.task.None? then s else s.(task := Some(s.task.value.(commitPoint := true)))
  }

  function IntendCancel(s: State): State {
    if s.task.None? then s else s.(task := Some(s.task.value.(cancelIntent := true)))
  }

  /** The outcome a restart assigns to a task it finds on disk. The digest is absent when the
      executable cannot be read. */
  function Verdict(t: Task, digest: Option<Hash>): Status {
    if t.commitPoint then (if digest == Some(t.sha) then Succeeded else Unknown)
    else if t.cancelIntent then Cancelled else Failed
  }

  function Recover(s: State, digest: Option<Hash>): State {
    if s.task.None? then s
    else
      var t := s.task.value;
      var v := Verdict(t, digest);
      var record := Record(t.key, t.number, t.jobId, v, "", if t.commitPoint then t.sha else "");
      s.(records := Put(s.records, record),
         control := if v == Unknown then Blocked else s.control,
         watermark := Max(s.watermark, t.number),
         task := None)
  }

  /** Adopt the server's answer to a handshake. */
  function ApplyAck(s: State, ack: Ack): State {
    if ack.control == Quarantined then s.(control := Quarantined)
    else if ack.control == Blocked then s.(control := Blocked)
    else if ack.streamId != "" && s.streamId != "" && s.streamId != ack.streamId then s.(control := Quarantined)
    else s.(streamId := if ack.streamId != "" then ack.streamId else s.streamId,
            watermark := Max(s.watermark, ack.watermark),
            control := if s.control == Blocked then Open else s.control)
  }

  function ReportOf(r: Record): RecordReport {
    RecordReport(r.jobId, r.number, r.status, r.reportedVersion)
  }

  function ReportsOf(records: seq<Record>): seq<RecordReport> {
    seq(|records|, i requires 0 <= i < |records| => ReportOf(records[i]))
  }

  function HandshakeOf(s: State): Handshake {
    Handshake(s.streamId, s.watermark, s.control,
      if s.task.Some? then Some(InProgressReport(s.task.value.jobId, s.task.value.number, s.task.value.stage))
      else None,
      ReportsOf(s.records))
  }

  // ---------------------------------------------------------------- what every operation keeps

  /** Statuses an agent's record can carry once its task has ended. */
  predicate Outcome(status: Status) {
    status.Succeeded? || status.Failed? || status.Unknown? || status.Cancelled?
  }

  ghost predicate RecordsOk(records: seq<Record>) {
    && |records| <= RECORD_WINDOW
    && (forall i, j :: 0 <= i < j < |records| ==> records[i].key != records[j].key)
    && (forall i :: 0 <= i < |records| && records[i].number > 0 ==> records[i].key == Sequenced(records[i].number))
  }

  /** A task has a record in step with it, and is the only one without an outcome. */
  ghost predicate TaskOk(s: State) {
    match s.task
    case None => forall i :: 0 <= i < |s.records| ==> Outcome(s.records[i].status)
    case Some(t) =>
      && InProgress(t.stage)
      && (t.number > 0 ==> t.key == Sequenced(t.number) && t.number <= s.watermark + 1 && s.streamId != "")
      && (exists i :: 0 <= i < |s.records| && s.records[i].key == t.key)
      && (forall i :: 0 <= i < |s.records| && s.records[i].key == t.key ==>
            s.records[i].status == t.stage && s.records[i].number == t.number && s.records[i].jobId == t.jobId)
      && (forall i :: 0 <= i < |s.records| && s.records[i].key != t.key ==> Outcome(s.records[i].status))
  }

  ghost predicate AgentOk(s: State) {
    0 <= s.watermark && RecordsOk(s.records) && TaskOk(s)
  }

  /** No watermark is held without a stream. */
  ghost predicate Promise(s: State) {
    s.streamId == "" ==> s.watermark == 0
  }

  lemma IndexUnique(records: seq<Record>, i: nat)
    requires RecordsOk(records) && i < |records|
    ensures IndexOf(records, records[i].key) == i
  {
  }

  /** What a Put leaves behind: the new record, and otherwise records that were there. */
  lemma PutKeeps(records: seq<Record>, record: Record)
    requires RecordsOk(records)
    requires record.number > 0 ==> record.key == Sequenced(record.number)
    ensures var put := Put(records, record);
      && RecordsOk(put)
      && record in put
      && (forall i :: 0 <= i < |put| && put[i].key != record.key ==> put[i] in records)
      && (forall i :: 0 <= i < |put| && put[i].key == record.key ==> put[i] == record)
  {
    var i := IndexOf(records, record.key);
    var put := Put(records, record);
    if i < |records| {
      assert put[i] == record;
    } else {
      assert put[|put| - 1] == record;
    }
  }

  lemma {:induction false} WithoutKeeps(records: seq<Record>, key: Key)
    requires RecordsOk(records)
    ensures RecordsOk(Without(records, key))
  {
    if records != [] {
      var front := records[..|records| - 1];
      WithoutKeeps(front, key);
      var kept := Without(front, key);
      forall i | 0 <= i < |kept|
        ensures kept[i].key != records[|records| - 1].key
      {
        assert kept[i] in front;
      }
      WithoutShorter(front, key);
    }
  }

  lemma {:induction false} WithoutShorter(records: seq<Record>, key: Key)
    ensures |Without(records, key)| <= |records|
  {
    if records != [] {
      WithoutShorter(records[..|records| - 1], key);
    }
  }

  lemma BeginKeeps(s: State, cmd: Command)
    requires AgentOk(s)
    ensures AgentOk(Begin(s, cmd))
  {
    if !StreamMismatch(s, cmd) && Admit(s, cmd) == Admitted {
      var record := Record(KeyOf(cmd), cmd.number, cmd.jobId, Accepted, "", cmd.sha);
      PutKeeps(s.records, record);
      var put := Put(s.records, record);
      var k :| 0 <= k < |put| && put[k] == record;
      assert put[k].key == KeyOf(cmd);
      forall i | 0 <= i < |put| && put[i].key != KeyOf(cmd)
        ensures Outcome(put[i].status)
      {
        assert put[i] in s.records;
      }
    }
  }

  lemma ProgressKeeps(s: State, stage: Status)
    requires AgentOk(s) && InProgress(stage)
    ensures AgentOk(Progress(s, stage))
    ensures s.task.Some? ==> ProgressSaves(s)
  {
    if s.task.Some? {
      var i :| 0 <= i < |s.records| && s.records[i].key == s.task.value.key;
      IndexUnique(s.records, i);
      assert Progress(s, stage).records[i].key == s.task.value.key;
    }
  }

  lemma OutcomeKeeps(s: State, record: Record, control: Control, watermark: int)
    requires AgentOk(s) && s.task.Some?
    requires record.key == s.task.value.key && record.number == s.task.value.number && Outcome(record.status)
    requires s.watermark <= watermark <= Max(s.watermark, record.number)
    ensures AgentOk(s.(records := Put(s.records, record), control := control, watermark := watermark, task := None))
  {
    PutKeeps(s.records, record);
    var put := Put(s.records, record);
    forall i | 0 <= i < |put|
      ensures Outcome(put[i].status)
    {
      if put[i].key != record.key {
        assert put[i] in s.records;
      }
    }
  }

  lemma FinishKeeps(s: State, status: Status)
    requires AgentOk(s) && Outcome(status)
    ensures AgentOk(Finish(s, status))
  {
    if s.task.Some? {
      var s' := Finish(s, status);
      OutcomeKeeps(s, OutcomeRecord(s.task.value, status), s'.control, s'.watermark);
    }
  }

  /** Recovery always clears the task, passes its sequence, and is idempotent. */
  lemma RecoverKeeps(s: State, digest: Option<Hash>)
    requires AgentOk(s)
    ensures var s' := Recover(s, digest);
      && AgentOk(s') && s'.task.None? && s.watermark <= s'.watermark
      && (s.task.Some? ==> s.task.value.number <= s'.watermark)
    ensures forall other :: Recover(Recover(s, digest), other) == Recover(s, digest)
  {
    if s.task.Some? {
      var t := s.task.value;
      var s' := Recover(s, digest);
      var record := Record(t.key, t.number, t.jobId, Verdict(t, digest), "", if t.commitPoint then t.sha else "");
      OutcomeKeeps(s, record, s'.control, s'.watermark);
    }
  }

  lemma AbortKeeps(s: State, cmd: Command)
    requires AgentOk(s)
    ensures AgentOk(Abort(s, cmd))
  {
    if s.task.Some? && s.task.value.key == KeyOf(cmd) {
      WithoutKeeps(s.records, KeyOf(cmd));
      var kept := Without(s.records, KeyOf(cmd));
      forall i | 0 <= i < |kept|
        ensures Outcome(kept[i].status)
      {
        assert kept[i] in s.records;
      }
    }
  }

  lemma CancelKeeps(s: State)
    requires AgentOk(s)
    ensures AgentOk(IntendCancel(s))
  {
  }

  lemma AckKeeps(s: State, ack: Ack)
    requires AgentOk(s)
    ensures AgentOk(ApplyAck(s, ack))
  {
  }

  /** An acknowledgement keeps the promise exactly when it brings no watermark without a stream. */
  lemma AckPromise(s: State, ack: Ack)
    requires AgentOk(s) && Promise(s)
    ensures Promise(ApplyAck(s, ack)) <==>
              (s.streamId == "" && ack.streamId == "" && ack.control == Open ==> ack.watermark <= 0)
  {
  }

  /** The other operations keep the promise by themselves. */
  lemma OthersPromise(s: State, cmd: Command, status: Status, digest: Option<Hash>)
    requires AgentOk(s) && Promise(s)
    ensures Promise(Begin(s, cmd)) && Promise(Progress(s, status)) && Promise(Finish(s, status))
    ensures Promise(Abort(s, cmd)) && Promise(MarkCommit(s)) && Promise(IntendCancel(s)) && Promise(Recover(s, digest))
  {
  }
}
