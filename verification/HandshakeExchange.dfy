/**
 The handshake exchange: the agent reports its stream, watermark and execution
 facts, the server reconciles and backfills, and the agent adopts the answer.
 */
module HandshakeExchange {
  import opened Basics
  import opened Protocol
  import opened NodeTables
  import A = AgentProtocol

  /** The rows before the backfill. */
  function Reconciled(r: NodeRows, newId: StreamId, p: Handshake): (r': NodeRows)
    ensures r'.stream.Some? && r'.targets == r.targets
  {
    Reconcile(if p.control == Quarantined then QuarantineNode(r, newId) else r, newId, p.streamId, p.watermark)
  }

  /** The rows after the server handled a handshake. */
  function Handled(r: NodeRows, newId: StreamId, p: Handshake, now: int): NodeRows {
    Backfill(Reconciled(r, newId, p), p.inProgress, p.records, now)
  }

  function AckOf(r: NodeRows): Ack
    requires r.stream.Some?
  {
    Ack(r.stream.value.id, r.stream.value.nextSeq, r.stream.value.retired, r.stream.value.control)
  }

  /** Sequenced reports do not contradict each other. */
  ghost predicate Coherent(p: Handshake) {
    && (forall i, j :: 0 <= i < j < |p.records| && p.records[i].number > 0 ==>
          p.records[i].number != p.records[j].number)
    && (forall i :: 0 <= i < |p.records| ==> A.Outcome(p.records[i].status) || InProgress(p.records[i].status))
    && (p.inProgress.Some? ==>
          && InProgress(p.inProgress.value.stage)
          && forall i :: (0 <= i < |p.records| && p.records[i].number > 0
                          && p.records[i].number == p.inProgress.value.number) ==>
               p.records[i].jobId == p.inProgress.value.jobId && p.records[i].status == p.inProgress.value.stage)
  }

  /** What an agent reports is coherent, whatever it went through. */
  lemma AgentIsCoherent(s: A.State)
    requires A.AgentOk(s)
    ensures Coherent(A.HandshakeOf(s))
  {
    var p := A.HandshakeOf(s);
    forall i | 0 <= i < |p.records|
      ensures A.Outcome(p.records[i].status) || InProgress(p.records[i].status)
    {
      assert p.records[i] == A.ReportOf(s.records[i]);
    }
  }

  // ---------------------------------------------------------------- the outcome of a backfill

  predicate Matches(rec: RecordReport, job: JobId, number: int) {
    rec.number > 0 && rec.jobId != "" && rec.jobId == job && rec.number == number
  }

  /** The status reported by the records for a target, if any. */
  function RecordedStatus(records: seq<RecordReport>, job: JobId, number: int): Option<Status>
    decreases |records|
  {
    if records == [] then None
    else if Matches(records[|records| - 1], job, number) then Some(records[|records| - 1].status)
    else RecordedStatus(records[..|records| - 1], job, number)
  }

  function ReportedStatus(p: Handshake, job: JobId, number: int): Option<Status> {
    var recorded := RecordedStatus(p.records, job, number);
    if recorded.Some? || p.inProgress.None? then recorded
    else
      var ip := p.inProgress.value;
      if ip.number > 0 && ip.jobId != "" && ip.jobId == job && ip.number == number then Some(ip.stage) else None
  }

  function Merge(current: Status, reported: Option<Status>): Status {
    if reported.Some? && CanMove(current, reported.value) then reported.value else current
  }

  ghost predicate DistinctNumbers(records: seq<RecordReport>) {
    forall i, j :: 0 <= i < j < |records| && records[i].number > 0 ==> records[i].number != records[j].number
  }

  lemma {:induction false} RecordedMember(records: seq<RecordReport>, job: JobId, number: int)
    ensures RecordedStatus(records, job, number).Some? ==>
              exists i :: 0 <= i < |records| && Matches(records[i], job, number)
                && RecordedStatus(records, job, number) == Some(records[i].status)
    decreases |records|
  {
    if records != [] && !Matches(records[|records| - 1], job, number) {
      RecordedMember(records[..|records| - 1], job, number);
    }
  }

  lemma {:induction false} RecordedIs(records: seq<RecordReport>, i: nat, job: JobId, number: int)
    requires DistinctNumbers(records) && i < |records| && Matches(records[i], job, number)
    ensures RecordedStatus(records, job, number) == Some(records[i].status)
    decreases |records|
  {
    var n := |records| - 1;
    if i < n {
      assert !Matches(records[n], job, number);
      RecordedIs(records[..n], i, job, number);
    }
  }

  /** The records act on each target on its own, in whatever order they come. */
  lemma {:induction false} BackfilledByRecords(r: NodeRows, records: seq<RecordReport>, now: int, job: JobId)
    requires DistinctNumbers(records) && job in r.targets
    ensures var r' := BackfillRecords(r, records, now);
      && r'.targets.Keys == r.targets.Keys
      && r'.targets[job].number == r.targets[job].number
      && r'.targets[job].status == Merge(r.targets[job].status, RecordedStatus(records, job, r.targets[job].number))
    decreases |records|
  {
    if records != [] {
      var n := |records| - 1;
      var front := records[..n];
      BackfilledByRecords(r, front, now, job);
      if Matches(records[n], job, r.targets[job].number) {
        RecordedMember(front, job, r.targets[job].number);
      }
    }
  }

  /** After a coherent handshake every target carries its reported status if that is legal, and otherwise
      keeps its own. */
  lemma HandledStatus(r: NodeRows, newId: StreamId, p: Handshake, now: int, job: JobId)
    requires Coherent(p) && job in r.targets
    ensures var r' := Handled(r, newId, p, now);
      && r'.targets.Keys == r.targets.Keys
      && r'.targets[job].number == r.targets[job].number
      && r'.targets[job].status == Merge(r.targets[job].status, ReportedStatus(p, job, r.targets[job].number))
  {
    BackfilledByRecords(Reconciled(r, newId, p), p.records, now, job);
    RecordedMember(p.records, job, r.targets[job].number);
  }

  // ---------------------------------------------------------------- convergence

  /** Every outcome the agent holds for a live target is an outcome on the server after one handshake. */
  lemma OutcomesConverge(r: NodeRows, newId: StreamId, s: A.State, now: int, i: nat)
    requires A.AgentOk(s) && i < |s.records|
    requires s.records[i].jobId in r.targets
    requires Matches(A.ReportOf(s.records[i]), s.records[i].jobId, r.targets[s.records[i].jobId].number)
    requires Terminal(s.records[i].status)
    ensures var status := StatusOf(Handled(r, newId, A.HandshakeOf(s), now), s.records[i].jobId);
      status.Some? && Terminal(status.value)
  {
    var p := A.HandshakeOf(s);
    AgentIsCoherent(s);
    var job := s.records[i].jobId;
    HandledStatus(r, newId, p, now, job);
    assert p.records[i] == A.ReportOf(s.records[i]);
    RecordedIs(p.records, i, job, r.targets[job].number);
    OutcomeAlwaysAccepted(r.targets[job].status, s.records[i].status);
  }

  /** Handling the same handshake again changes no execution status. */
  lemma ReplayChangesNothing(r: NodeRows, newId: StreamId, s: A.State, now: int, again: int, job: JobId)
    requires A.AgentOk(s) && job in r.targets
    ensures var p := A.HandshakeOf(s);
      var r' := Handled(r, newId, p, now);
      StatusOf(r', job).Some? && StatusOf(Handled(r', newId, p, again), job) == StatusOf(r', job)
  {
    var p := A.HandshakeOf(s);
    AgentIsCoherent(s);
    HandledStatus(r, newId, p, now, job);
    HandledStatus(Handled(r, newId, p, now), newId, p, again, job);
  }

  /** Some record for the target names a legal move away from a status. */
  ghost predicate RecordsMove(records: seq<RecordReport>, job: JobId, number: int, current: Status) {
    exists i :: 0 <= i < |records| && Matches(records[i], job, number)
      && records[i].status != current && CanMove(current, records[i].status)
  }

  /** The report of the unfinished update does. */
  predicate StageMoves(ip: Option<InProgressReport>, job: JobId, number: int, current: Status) {
    && ip.Some? && ip.value.number > 0 && ip.value.jobId != "" && ip.value.jobId == job && ip.value.number == number
    && ip.value.stage != current && CanMove(current, ip.value.stage)
  }

  /** Moves never lead back: a sequence of records changes a status exactly when one of them moves away from it. */
  lemma {:induction false} RecordsMoveExactly(r: NodeRows, records: seq<RecordReport>, now: int, job: JobId)
    requires job in r.targets
    ensures var r', t := BackfillRecords(r, records, now), r.targets[job];
      && job in r'.targets && r'.targets[job].number == t.number
      && CanClimb(t.status, r'.targets[job].status)
      && (r'.targets[job].status != t.status <==> RecordsMove(records, job, t.number, t.status))
    decreases |records|
  {
    if records != [] {
      var n := |records| - 1;
      RecordsMoveExactly(r, records[..n], now, job);
      LastRecordMoves(r, records, now, job);
    }
  }

  /** Equal, or of higher rank. */
  predicate CanClimb(current: Status, next: Status) {
    current == next || Rank(current) < Rank(next)
  }

  /** What one record does to a target. */
  lemma RecordSets(r: NodeRows, rec: RecordReport, now: int, job: JobId)
    requires job in r.targets
    ensures var r', t := BackfillRecord(r, rec, now), r.targets[job];
      && job in r'.targets && r'.targets[job].number == t.number
      && r'.targets[job].status ==
         if Matches(rec, job, t.number) then Merge(t.status, Some(rec.status)) else t.status
  {
  }

  /** Merging one report more moves a status away from where it began exactly when it was away already or the
      report moves it. */
  lemma MergeMoves(first: Status, current: Status, report: Status)
    requires CanClimb(first, current)
    ensures CanClimb(first, Merge(current, Some(report)))
    ensures Merge(current, Some(report)) != first <==>
            current != first || (report != first && CanMove(first, report))
  {
    if current != report && CanMove(current, report) { ChangeClimbs(current, report); }
  }

  lemma LastRecordMoves(r: NodeRows, records: seq<RecordReport>, now: int, job: JobId)
    requires job in r.targets && records != []
    requires var n := |records| - 1;
      var mid, t := BackfillRecords(r, records[..n], now), r.targets[job];
      && job in mid.targets && mid.targets[job].number == t.number && CanClimb(t.status, mid.targets[job].status)
      && (mid.targets[job].status != t.status <==> RecordsMove(records[..n], job, t.number, t.status))
    ensures var r', t := BackfillRecords(r, records, now), r.targets[job];
      && job in r'.targets && r'.targets[job].number == t.number && CanClimb(t.status, r'.targets[job].status)
      && (r'.targets[job].status != t.status <==> RecordsMove(records, job, t.number, t.status))
  {
    var n, t := |records| - 1, r.targets[job];
    var mid := BackfillRecords(r, records[..n], now);
    RecordSets(mid, records[n], now, job);
    MergeMoves(t.status, mid.targets[job].status, records[n].status);
    MoveSplit(records[..n], records[n], job, t.number, t.status);
    assert records == records[..n] + [records[n]];
  }

  lemma MoveSplit(front: seq<RecordReport>, last: RecordReport, job: JobId, number: int, current: Status)
    ensures RecordsMove(front + [last], job, number, current) <==>
      (RecordsMove(front, job, number, current)
       || (Matches(last, job, number) && last.status != current && CanMove(current, last.status)))
  {
    var all := front + [last];
    assert forall i :: 0 <= i < |front| ==> all[i] == front[i];
    assert all[|front|] == last;
  }

  /** Handling any handshake, coherent or not, changes a target's status exactly when one of its reports names a
      legal move away from the status the target has. So a second handling of the same handshake changes something
      exactly when a report names a legal move away from what the first one left. */
  lemma HandlingMovesExactly(r: NodeRows, newId: StreamId, p: Handshake, now: int, job: JobId)
    requires job in r.targets
    ensures var t := r.targets[job];
      StatusOf(Handled(r, newId, p, now), job) != StatusOf(r, job) <==>
      RecordsMove(p.records, job, t.number, t.status) || StageMoves(p.inProgress, job, t.number, t.status)
  {
    var r0 := Reconciled(r, newId, p);
    RecordsMoveExactly(r0, p.records, now, job);
    var mid := BackfillRecords(r0, p.records, now);
    StageStep(mid, p.inProgress, job);
  }

  lemma StageStep(r: NodeRows, ip: Option<InProgressReport>, job: JobId)
    requires job in r.targets
    ensures var r', t := BackfillInProgress(r, ip), r.targets[job];
      && job in r'.targets && CanClimb(t.status, r'.targets[job].status)
      && (r'.targets[job].status != t.status <==> StageMoves(ip, job, t.number, t.status))
  {
    if StageMoves(ip, job, r.targets[job].number, r.targets[job].status) {
      ChangeClimbs(r.targets[job].status, ip.value.stage);
    }
  }

  /** Such handshakes exist, though no agent sends them: of two contradictory records the first one is refused at
      the first handling and taken at the second. */
  lemma IncoherentReplayMoves(r: NodeRows, newId: StreamId, job: JobId, now: int)
    requires job in r.targets && job != "" && r.targets[job].number > 0 && r.targets[job].status == Accepted
    ensures var p := Contradictory(job, r.targets[job].number);
      StatusOf(Handled(Handled(r, newId, p, now), newId, p, now), job) != StatusOf(Handled(r, newId, p, now), job)
  {
    var p := Contradictory(job, r.targets[job].number);
    DownloadingFirst(r, newId, job, now);
    var r' := Handled(r, newId, p, now);
    assert Matches(p.records[0], job, r'.targets[job].number);
    HandlingMovesExactly(r', newId, p, now, job);
  }

  function Contradictory(job: JobId, number: int): Handshake {
    Handshake("", 0, Open, None, [RecordReport(job, number, Verifying, ""), RecordReport(job, number, Downloading, "")])
  }

  lemma DownloadingFirst(r: NodeRows, newId: StreamId, job: JobId, now: int)
    requires job in r.targets && job != "" && r.targets[job].number > 0 && r.targets[job].status == Accepted
    ensures var r' := Handled(r, newId, Contradictory(job, r.targets[job].number), now);
      job in r'.targets && r'.targets[job].number == r.targets[job].number && r'.targets[job].status == Downloading
  {
    var p := Contradictory(job, r.targets[job].number);
    TwoRecords(Reconciled(r, newId, p), p.records[0], p.records[1], now);
  }

  lemma TwoRecords(r: NodeRows, first: RecordReport, second: RecordReport, now: int)
    ensures BackfillRecords(r, [first, second], now) == BackfillRecord(BackfillRecord(r, first, now), second, now)
  {
    assert [first, second][..1] == [first];
    assert [first][..0] == [];
    assert BackfillRecords(r, [first], now) == BackfillRecord(BackfillRecords(r, [], now), first, now);
  }

  // ---------------------------------------------------------------- unknown outcomes

  /** An unknown outcome in the records that the server still holds a target for. */
  predicate HeldUnknown(r: NodeRows, rec: RecordReport) {
    rec.status == Unknown && rec.jobId in r.targets && Matches(rec, rec.jobId, r.targets[rec.jobId].number)
  }

  /** The backfill leaves the node open exactly when it was open and no reported unknown that the server
      holds is an unknown there. */
  lemma {:induction false} OpenAfterRecords(r: NodeRows, records: seq<RecordReport>, now: int)
    requires r.stream.Some?
    ensures var r' := BackfillRecords(r, records, now);
      && r'.stream.Some? && r'.targets.Keys == r.targets.Keys
      && (r'.stream.value.control == Open <==>
            r.stream.value.control == Open
            && forall i :: 0 <= i < |records| && HeldUnknown(r', records[i]) ==>
                 r'.targets[records[i].jobId].status != Unknown)
    decreases |records|
  {
    if records != [] {
      var n := |records| - 1;
      var front, last := records[..n], records[n];
      OpenAfterRecords(r, front, now);
      var mid := BackfillRecords(r, front, now);
      var r' := BackfillRecords(r, records, now);
      assert r' == BackfillRecord(mid, last, now);
      forall i | 0 <= i < n
        ensures HeldUnknown(mid, records[i]) <==> HeldUnknown(r', records[i])
        ensures HeldUnknown(mid, records[i]) && mid.targets[records[i].jobId].status == Unknown ==>
                  r'.targets[records[i].jobId].status == Unknown
      {
        assert front[i] == records[i];
      }
      if r'.stream.value.control == Open {
        forall i | 0 <= i < |records| && HeldUnknown(r', records[i])
          ensures r'.targets[records[i].jobId].status != Unknown
        {
          if i < n {
            assert front[i] == records[i];
            assert HeldUnknown(mid, front[i]);
          }
        }
      }
      if r.stream.value.control == Open
         && forall i :: 0 <= i < |records| && HeldUnknown(r', records[i]) ==>
              r'.targets[records[i].jobId].status != Unknown {
        forall i | 0 <= i < |front| && HeldUnknown(mid, front[i])
          ensures mid.targets[front[i].jobId].status != Unknown
        {
          assert front[i] == records[i];
        }
        assert records[n] == last;
      }
    }
  }

  /** The status of a held target is an outcome other than unknown. */
  predicate DisposedOf(r: NodeRows, job: JobId) {
    job in r.targets && Terminal(r.targets[job].status) && r.targets[job].status != Unknown
  }

  /** Every unknown outcome the agent holds, for which the server has the target, is disposed of there. */
  predicate UnknownsDisposed(r: NodeRows, s: A.State) {
    forall i :: 0 <= i < |s.records| && HeldUnknown(r, A.ReportOf(s.records[i])) ==> DisposedOf(r, s.records[i].jobId)
  }

  /** Before the exchange: neither side is isolated, the streams agree, and the unknowns are disposed of. */
  predicate WillOpen(r: NodeRows, newId: StreamId, s: A.State) {
    && s.control != Quarantined
    && (r.stream.Some? ==> r.stream.value.control == Open)
    && (s.streamId == "" || s.streamId == if r.stream.Some? then r.stream.value.id else newId)
    && UnknownsDisposed(r, s)
  }

  lemma OpenAfterReconciliation(r: NodeRows, newId: StreamId, p: Handshake)
    ensures var st := Reconciled(r, newId, p).stream.value;
      && st.id == (if r.stream.Some? then r.stream.value.id else newId)
      && (st.control == Open <==>
            && p.control != Quarantined && (r.stream.Some? ==> r.stream.value.control == Open)
            && (p.streamId == "" || p.streamId == st.id))
  {
  }

  /** An unknown the agent holds is unknown on the server after the backfill unless it was disposed of before. */
  lemma HeldAfterRecords(r: NodeRows, s: A.State, now: int, i: nat)
    requires A.AgentOk(s) && i < |s.records| && HeldUnknown(r, A.ReportOf(s.records[i]))
    ensures var r', job := BackfillRecords(r, A.HandshakeOf(s).records, now), s.records[i].jobId;
      && job in r'.targets && r'.targets[job].number == r.targets[job].number
      && (r'.targets[job].status != Unknown <==> DisposedOf(r, job))
      && (DisposedOf(r, job) ==> r'.targets[job].status == r.targets[job].status)
  {
    var p, job := A.HandshakeOf(s), s.records[i].jobId;
    AgentIsCoherent(s);
    BackfilledByRecords(r, p.records, now, job);
    assert p.records[i] == A.ReportOf(s.records[i]);
    RecordedIs(p.records, i, job, r.targets[job].number);
    OutcomeAlwaysAccepted(r.targets[job].status, Unknown);
  }

  lemma {:induction false} NumbersStay(r: NodeRows, records: seq<RecordReport>, now: int)
    ensures var r' := BackfillRecords(r, records, now);
      r'.targets.Keys == r.targets.Keys && forall j :: j in r.targets ==> r'.targets[j].number == r.targets[j].number
    decreases |records|
  {
    if records != [] {
      NumbersStay(r, records[..|records| - 1], now);
    }
  }

  lemma UnknownsAfterRecords(r: NodeRows, s: A.State, now: int)
    requires A.AgentOk(s)
    ensures var records, r' := A.HandshakeOf(s).records, BackfillRecords(r, A.HandshakeOf(s).records, now);
      UnknownsDisposed(r, s) <==> forall i :: 0 <= i < |records| && HeldUnknown(r', records[i]) ==>
        r'.targets[records[i].jobId].status != Unknown
  {
    var records := A.HandshakeOf(s).records;
    var r' := BackfillRecords(r, records, now);
    NumbersStay(r, records, now);
    forall i | 0 <= i < |records|
      ensures records[i] == A.ReportOf(s.records[i])
      ensures HeldUnknown(r', records[i]) <==> HeldUnknown(r, records[i])
      ensures HeldUnknown(r, records[i]) ==>
        (r'.targets[records[i].jobId].status != Unknown <==> DisposedOf(r, records[i].jobId))
    {
      assert records[i] == A.ReportOf(s.records[i]);
      if HeldUnknown(r, records[i]) {
        HeldAfterRecords(r, s, now, i);
      }
    }
  }

  /** The answer to any agent's handshake, by any server, is open exactly when nothing spoke against it before:
      neither side isolated, the streams in agreement, and every unknown that the agent holds and the server still
      has a target for already disposed of there. */
  lemma AnsweredOpenExactly(r: NodeRows, newId: StreamId, s: A.State, now: int)
    requires A.AgentOk(s)
    ensures var r' := Handled(r, newId, A.HandshakeOf(s), now);
      && r'.stream.Some? && r'.stream.value.id == (if r.stream.Some? then r.stream.value.id else newId)
      && (AckOf(r').control == Open <==> WillOpen(r, newId, s))
  {
    var p := A.HandshakeOf(s);
    var r0 := Reconciled(r, newId, p);
    OpenAfterReconciliation(r, newId, p);
    StreamIdStays(r0, p.records, now);
    OpenAfterRecords(r0, p.records, now);
    UnknownsAfterRecords(r0, s, now);
  }

  /** The unknowns that were disposed of stay so, and the ones that were not are unknown after the exchange. */
  lemma HeldUnknownsStay(r: NodeRows, newId: StreamId, s: A.State, now: int, i: nat)
    requires A.AgentOk(s) && i < |s.records| && HeldUnknown(r, A.ReportOf(s.records[i]))
    ensures StatusOf(Handled(r, newId, A.HandshakeOf(s), now), s.records[i].jobId)
            == Some(if DisposedOf(r, s.records[i].jobId) then r.targets[s.records[i].jobId].status else Unknown)
  {
    HeldAfterRecords(Reconciled(r, newId, A.HandshakeOf(s)), s, now, i);
  }

  /** So, whatever state the agent was in, it is open after adopting the answer exactly when the answer is open. */
  lemma UnblockedExactly(r: NodeRows, newId: StreamId, s: A.State, now: int)
    requires A.AgentOk(s)
    ensures var r' := Handled(r, newId, A.HandshakeOf(s), now);
      r'.stream.Some? && (A.ApplyAck(s, AckOf(r')).control == Open <==> WillOpen(r, newId, s))
  {
    AnsweredOpenExactly(r, newId, s, now);
  }

  /** A server that forgot the jobs of the agent's unknown outcomes, as after a restore, opens the agent although
      nobody disposed of them: the agent keeps its unknown record, and the server has no target to resolve. */
  lemma ForgottenUnknownOpens(r: NodeRows, newId: StreamId, s: A.State, now: int, i: nat)
    requires A.AgentOk(s) && s.control == Blocked && i < |s.records| && s.records[i].status == Unknown
    requires r.stream.Some? ==> r.stream.value.control == Open
    requires s.streamId == "" || s.streamId == if r.stream.Some? then r.stream.value.id else newId
    requires forall k :: 0 <= k < |s.records| && s.records[k].status == Unknown ==> s.records[k].jobId !in r.targets
    ensures var r' := Handled(r, newId, A.HandshakeOf(s), now);
      && r'.stream.Some? && A.ApplyAck(s, AckOf(r')).control == Open
      && s.records[i] in A.ApplyAck(s, AckOf(r')).records && s.records[i].jobId !in r'.targets
  {
    UnblockedExactly(r, newId, s, now);
    NumbersStay(Reconciled(r, newId, A.HandshakeOf(s)), A.HandshakeOf(s).records, now);
  }

  /** A node whose stream row was lost meets a bound agent with a new stream id, and is isolated: the stream
      is not rebuilt from the agent's id. */
  lemma LostStreamIsolates(r: NodeRows, newId: StreamId, p: Handshake, now: int)
    requires r.stream.None? && p.streamId != "" && newId != p.streamId
    ensures var r' := Handled(r, newId, p, now);
      r'.stream.Some? && r'.stream.value.id == newId && r'.stream.value.control != Open
  {
    var r0 := Reconciled(r, newId, p);
    OpenAfterRecords(r0, p.records, now);
    StreamIdStays(r0, p.records, now);
  }

  lemma BackfillKeepsStream(r: NodeRows, ip: Option<InProgressReport>, records: seq<RecordReport>, now: int)
    requires r.stream.Some?
    ensures Backfill(r, ip, records, now).stream.Some?
  {
    StreamIdStays(r, records, now);
  }

  lemma {:induction false} StreamIdStays(r: NodeRows, records: seq<RecordReport>, now: int)
    requires r.stream.Some?
    ensures var r' := BackfillRecords(r, records, now);
      r'.stream.Some? && r'.stream.value.id == r.stream.value.id
    decreases |records|
  {
    if records != [] {
      StreamIdStays(r, records[..|records| - 1], now);
    }
  }
}
