/**
 What the agent's operations mean, in terms of the fields and the records they leave: when a command is admitted
 and what else it is answered, what an answer of the server changes, what a restart records, and what undoes what.
 */
module AgentLaws {
  import opened Basics
  import opened Protocol
  import opened AgentProtocol

  // ---------------------------------------------------------------- admission

  /** Commands are taken for the same exactly by their sequence, or else by their job, or else by their hash. */
  lemma SameKeyExactly(a: Command, b: Command)
    ensures KeyOf(a) == KeyOf(b) <==>
      if a.number > 0 || b.number > 0 then a.number == b.number
      else if a.jobId !in ["", "auto-update"] || b.jobId !in ["", "auto-update"] then a.jobId == b.jobId
      else a.sha == b.sha
  {
  }

  /** The agent takes commands, and this one belongs to its stream. */
  predicate Listens(s: State, cmd: Command) {
    s.control == Open && (cmd.number > 0 ==> s.streamId != "" && cmd.streamId == s.streamId)
  }

  predicate Known(s: State, cmd: Command) {
    exists i :: 0 <= i < |s.records| && s.records[i].key == KeyOf(cmd)
  }

  lemma KnownIsFound(s: State, cmd: Command)
    ensures Known(s, cmd) <==> Find(s.records, KeyOf(cmd)).Some?
    ensures Find(s.records, KeyOf(cmd)).Some? ==>
      Find(s.records, KeyOf(cmd)).value in s.records && Find(s.records, KeyOf(cmd)).value.key == KeyOf(cmd)
  {
  }

  /** A command is admitted exactly when the agent listens to it, is idle, does not know it, and it is the next. */
  lemma AdmittedExactly(s: State, cmd: Command)
    ensures Admit(s, cmd) == Admitted <==>
      Listens(s, cmd) && s.task.None? && !Known(s, cmd) && (cmd.number > 0 ==> cmd.number == s.watermark + 1)
  {
    KnownIsFound(s, cmd);
  }

  /** Each refusal names its reason, and only that. */
  lemma RefusedExactly(s: State, cmd: Command)
    ensures Admit(s, cmd) == Rejected(ControlBlocked) <==> s.control == Blocked
    ensures Admit(s, cmd) == Rejected(ControlQuarantined) <==>
      s.control == Quarantined || (s.control == Open && !Listens(s, cmd))
    ensures Admit(s, cmd) == Rejected(Expired) <==> Listens(s, cmd) && 0 < cmd.number < s.watermark
    ensures Admit(s, cmd) == Rejected(SequenceGap) <==>
      Listens(s, cmd) && cmd.number > 0 && cmd.number > s.watermark + 1
    ensures Admit(s, cmd) == Rejected(AlreadyProcessed) <==>
      Listens(s, cmd) && cmd.number > 0 && cmd.number == s.watermark && !Known(s, cmd)
    ensures Admit(s, cmd) == Busy <==>
      Listens(s, cmd) && (cmd.number > 0 ==> cmd.number == s.watermark + 1) && !Known(s, cmd)
      && s.task.Some? && s.task.value.key != KeyOf(cmd)
  {
    KnownIsFound(s, cmd);
  }

  /** A repeated command is answered with the record of it that the agent holds, or with its unfinished task. */
  lemma ReplayedExactly(s: State, cmd: Command)
    requires Admit(s, cmd).Replayed?
    ensures var r := Admit(s, cmd).record;
      && Listens(s, cmd) && (cmd.number > 0 ==> s.watermark <= cmd.number <= s.watermark + 1)
      && r.key == KeyOf(cmd)
      && (Known(s, cmd) ==> r in s.records)
      && (!Known(s, cmd) ==>
            && s.task.Some? && s.task.value.key == r.key
            && s.task.value.number == r.number && s.task.value.jobId == r.jobId
            && s.task.value.stage == r.status && s.task.value.targetVersion == r.reportedVersion
            && s.task.value.sha == r.sha)
  {
    KnownIsFound(s, cmd);
  }

  /** A command of another stream isolates the agent; a refused one changes nothing; an admitted one becomes the
      task, before its commit point, and its record. */
  lemma BeginMeans(s: State, cmd: Command)
    requires RecordsOk(s.records)
    ensures s.control == Open && !Listens(s, cmd) ==>
      Begin(s, cmd).control == Quarantined && Begin(s, cmd).(control := Open) == s
    ensures Listens(s, cmd) && Admit(s, cmd) != Admitted ==> Begin(s, cmd) == s
    ensures s.control != Open ==> Begin(s, cmd) == s
    ensures Admit(s, cmd) == Admitted ==>
      var s' := Begin(s, cmd);
      && s'.(task := None, records := s.records) == s && s'.task.Some?
      && var t := s'.task.value;
      && t.key == KeyOf(cmd) && t.number == cmd.number && t.jobId == cmd.jobId && t.stage == Accepted
      && t.targetVersion == cmd.targetVersion && t.sha == cmd.sha && !t.commitPoint && !t.cancelIntent
      && Adds(s.records, s'.records, t.key, t.number, t.jobId, Accepted)
  {
    if Admit(s, cmd) == Admitted {
      KnownIsFound(s, cmd);
      AdmittedExactly(s, cmd);
      PutAdds(s.records, Record(KeyOf(cmd), cmd.number, cmd.jobId, Accepted, "", cmd.sha));
    }
  }

  /** The records hold one for the key, with the status, and otherwise what was there: all of it, except the oldest
      when a new one did not fit. */
  ghost predicate Adds(before: seq<Record>, after: seq<Record>, key: Key, number: int, job: JobId, status: Status) {
    && (exists r :: r in after && r.key == key && r.number == number && r.jobId == job && r.status == status)
    && (forall r :: r in after && r.key == key ==> r.number == number && r.jobId == job && r.status == status)
    && (forall r :: r in after && r.key != key ==> r in before)
    && (forall r :: r in before && r.key != key ==> r in after || (|before| == RECORD_WINDOW && r == before[0]))
  }

  lemma PutAdds(records: seq<Record>, record: Record)
    requires RecordsOk(records)
    ensures Adds(records, Put(records, record), record.key, record.number, record.jobId, record.status)
  {
    var i, put := IndexOf(records, record.key), Put(records, record);
    if i < |records| {
      assert put[i] == record;
      forall r | r in records && r.key != record.key
        ensures r in put
      {
        var k :| 0 <= k < |records| && records[k] == r;
        assert put[k] == r;
      }
      assert forall k :: 0 <= k < |records| && records[k].key == record.key ==> k == i;
    } else {
      assert put[|put| - 1] == record;
      forall r | r in records
        ensures r in put || (|records| == RECORD_WINDOW && r == records[0])
      {
        var k :| 0 <= k < |records| && records[k] == r;
        if |records| < RECORD_WINDOW {
          assert put[k] == r;
        } else if k > 0 {
          assert put[k - 1] == r;
        }
      }
    }
  }

  // ---------------------------------------------------------------- undoing an admission

  lemma {:induction false} WithoutNothing(records: seq<Record>, key: Key)
    requires forall i :: 0 <= i < |records| ==> records[i].key != key
    ensures Without(records, key) == records
  {
    if records != [] {
      var n := |records| - 1;
      var front := records[..n];
      assert records == front + [records[n]] && records[n].key != key;
      WithoutNothing(front, key);
    }
  }

  lemma PutAppends(records: seq<Record>, record: Record)
    requires |records| <= RECORD_WINDOW && forall i :: 0 <= i < |records| ==> records[i].key != record.key
    ensures Put(records, record) ==
      (if |records| < RECORD_WINDOW then records else records[1..]) + [record]
  {
    if records != [] { assert (records + [record])[1..] == records[1..] + [record]; }
  }

  lemma WithoutLast(records: seq<Record>, record: Record)
    requires forall i :: 0 <= i < |records| ==> records[i].key != record.key
    ensures Without(records + [record], record.key) == records
  {
    assert (records + [record])[..|records|] == records;
    WithoutNothing(records, record.key);
  }

  /** Undoing an admission brings back the state before it; only a full window has lost its oldest record. */
  lemma AbortUndoes(s: State, cmd: Command)
    requires RecordsOk(s.records) && Admit(s, cmd) == Admitted
    ensures Abort(Begin(s, cmd), cmd) ==
      if |s.records| < RECORD_WINDOW then s else s.(records := s.records[1..])
  {
    AdmittedExactly(s, cmd);
    KnownIsFound(s, cmd);
    var record := Record(KeyOf(cmd), cmd.number, cmd.jobId, Accepted, "", cmd.sha);
    PutAppends(s.records, record);
    WithoutLast(if |s.records| < RECORD_WINDOW then s.records else s.records[1..], record);
  }

  lemma AbortOthersNothing(s: State, cmd: Command)
    ensures s.task.None? || s.task.value.key != KeyOf(cmd) ==> Abort(s, cmd) == s
  {
  }

  // ---------------------------------------------------------------- stages and outcomes

  /** A stage change shows in the task and in its record, and nowhere else. */
  lemma ProgressMeans(s: State, stage: Status)
    requires AgentOk(s) && s.task.Some?
    ensures var t, s' := s.task.value, Progress(s, stage);
      && s'.(task := s.task, records := s.records) == s
      && s'.task == Some(t.(stage := stage)) && |s'.records| == |s.records|
      && (forall i :: 0 <= i < |s.records| && s.records[i].key != t.key ==> s'.records[i] == s.records[i])
      && (forall i :: 0 <= i < |s.records| && s.records[i].key == t.key ==>
            && s'.records[i].status == stage && s'.records[i].number == t.number && s'.records[i].jobId == t.jobId
            && s'.records[i].key == t.key && s'.records[i].sha == s.records[i].sha
            && s'.records[i].reportedVersion ==
               (if t.targetVersion == "" then s.records[i].reportedVersion else t.targetVersion))
  {
    forall i | 0 <= i < |s.records| && s.records[i].key == s.task.value.key
      ensures i == IndexOf(s.records, s.task.value.key)
    {
      IndexUnique(s.records, i);
    }
  }

  /** An outcome ends the task: it is recorded, spends the sequence, and blocks the agent exactly when unknown. */
  lemma FinishMeans(s: State, status: Status)
    requires AgentOk(s) && s.task.Some?
    ensures var t, s' := s.task.value, Finish(s, status);
      && s'.task.None? && s'.streamId == s.streamId
      && Adds(s.records, s'.records, t.key, t.number, t.jobId, status)
      && s'.control == (if status == Unknown then Blocked else s.control)
      && s.watermark <= s'.watermark && (t.number > 0 && status != Accepted ==> t.number <= s'.watermark)
      && (s'.watermark == s.watermark || (s'.watermark == t.number && status != Accepted))
      && (exists r :: r in s'.records && r.key == t.key && r.sha == t.sha
            && r.reportedVersion == if status == Cancelled then "" else t.targetVersion)
  {
    var t := s.task.value;
    PutAdds(s.records, OutcomeRecord(t, status));
    PutKeeps(s.records, OutcomeRecord(t, status));
  }

  /** Taking the commit point and noting a cancel change that one mark of the task. */
  lemma MarksMean(s: State)
    requires s.task.Some?
    ensures MarkCommit(s).task.Some? && MarkCommit(s).(task := s.task) == s
    ensures MarkCommit(s).task.value.(commitPoint := s.task.value.commitPoint) == s.task.value
    ensures MarkCommit(s).task.value.commitPoint
    ensures IntendCancel(s).task.Some? && IntendCancel(s).(task := s.task) == s
    ensures IntendCancel(s).task.value.(cancelIntent := s.task.value.cancelIntent) == s.task.value
    ensures IntendCancel(s).task.value.cancelIntent
  {
  }

  // ---------------------------------------------------------------- restarts

  /** The outcome a restart records for the task it finds: cancelled exactly when a cancel was noted before the
      commit point, failed exactly when neither was, succeeded exactly when the commit point was taken and the
      executable has the target's digest, and unknown exactly when it was taken and that cannot be shown. */
  ghost predicate RestartRecords(t: Task, digest: Option<Hash>, status: Status) {
    && (status == Cancelled <==> !t.commitPoint && t.cancelIntent)
    && (status == Failed <==> !t.commitPoint && !t.cancelIntent)
    && (status == Succeeded <==> t.commitPoint && digest.Some? && digest.value == t.sha)
    && (status == Unknown <==> t.commitPoint && (digest.None? || digest.value != t.sha))
  }

  lemma RecoverMeans(s: State, digest: Option<Hash>)
    requires AgentOk(s)
    ensures s.task.None? ==> Recover(s, digest) == s
    ensures s.task.Some? ==>
      var t, s' := s.task.value, Recover(s, digest);
      exists status :: RestartRecords(t, digest, status)
        && s'.task.None? && s'.streamId == s.streamId
        && Adds(s.records, s'.records, t.key, t.number, t.jobId, status)
        && s'.control == (if status == Unknown then Blocked else s.control)
        && s.watermark <= s'.watermark && t.number <= s'.watermark
        && (s'.watermark == s.watermark || s'.watermark == t.number)
  {
    if s.task.Some? {
      var t := s.task.value;
      var status := Verdict(t, digest);
      PutAdds(s.records, Record(t.key, t.number, t.jobId, status, "", if t.commitPoint then t.sha else ""));
      assert RestartRecords(t, digest, status);
    }
  }

  /** The records hold exactly one for the task, with the outcome of a restart. */
  ghost predicate Concludes(records: seq<Record>, t: Task, digest: Option<Hash>) {
    exists r :: r in records && r.key == t.key && r.number == t.number && r.jobId == t.jobId
      && RestartRecords(t, digest, r.status) && forall q :: q in records && q.key == t.key ==> q == r
  }

  lemma RecoverConcludes(s: State, digest: Option<Hash>)
    requires AgentOk(s) && s.task.Some?
    ensures Concludes(Recover(s, digest).records, s.task.value, digest)
  {
    var t := s.task.value;
    var r := Record(t.key, t.number, t.jobId, Verdict(t, digest), "", if t.commitPoint then t.sha else "");
    PutKeeps(s.records, r);
    assert RestartRecords(t, digest, r.status);
    var put := Put(s.records, r);
    forall q | q in put && q.key == t.key
      ensures q == r
    {
      var i :| 0 <= i < |put| && put[i] == q;
    }
  }

  // ---------------------------------------------------------------- the server's answer

  /** The streams agree: either side has none, or they are the same. */
  predicate Agree(s: State, ack: Ack) {
    ack.streamId == "" || s.streamId == "" || ack.streamId == s.streamId
  }

  /** An open answer that agrees is adopted: the stream where the agent had none, the greater watermark, and a
      blocked agent opens. Any other isolates the agent and changes nothing else. */
  lemma AckAdopted(s: State, ack: Ack)
    ensures var s' := ApplyAck(s, ack);
      && s'.task == s.task && s'.records == s.records
      && if ack.control == Open && Agree(s, ack) then
           && ack.watermark <= s'.watermark && s.watermark <= s'.watermark
           && (s'.watermark == s.watermark || s'.watermark == ack.watermark)
           && s'.streamId == (if s.streamId == "" then ack.streamId else s.streamId)
           && (s'.control == Open <==> s.control != Quarantined)
           && (s.control == Quarantined ==> s'.control == Quarantined)
         else
           && s'.watermark == s.watermark && s'.streamId == s.streamId
           && s'.control == (if ack.control == Blocked then Blocked else Quarantined)
  {
  }

  /** So after an open answer an idle agent takes the command that follows the answer's watermark, unless it was
      further already or knows the command. */
  lemma AckOpensNext(s: State, ack: Ack, cmd: Command)
    requires ack.control == Open && Agree(s, ack) && s.control != Quarantined && ack.watermark >= s.watermark >= 0
    requires ack.streamId != "" && cmd.streamId == ack.streamId && cmd.number == ack.watermark + 1
    requires s.task.None? && !Known(s, cmd)
    ensures Admit(ApplyAck(s, ack), cmd) == Admitted
  {
    AdmittedExactly(ApplyAck(s, ack), cmd);
  }

  // ---------------------------------------------------------------- the handshake

  /** The handshake reports stream, watermark, control state and unfinished update, and every record in order. */
  lemma HandshakeTells(s: State)
    ensures var p := HandshakeOf(s);
      && p.streamId == s.streamId && p.watermark == s.watermark && p.control == s.control
      && (p.inProgress.Some? <==> s.task.Some?)
      && (s.task.Some? ==>
            p.inProgress.value.jobId == s.task.value.jobId && p.inProgress.value.number == s.task.value.number
            && p.inProgress.value.stage == s.task.value.stage)
      && |p.records| == |s.records|
      && forall i :: 0 <= i < |s.records| ==>
           p.records[i].jobId == s.records[i].jobId && p.records[i].number == s.records[i].number
           && p.records[i].status == s.records[i].status
           && p.records[i].reportedVersion == s.records[i].reportedVersion
  {
  }
}
