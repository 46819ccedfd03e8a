/**
 What every transaction keeps of a node's rows: sequences are allocated once
 and leave no permanent hole, an unknown outcome keeps the node closed to
 commands, and closed sequences, the stored watermark and the next sequence
 only grow.
 */
module NodeInvariants {
  import opened Basics
  import opened Protocol
  import opened RetiredPrefix
  import opened NodeTables

  ghost predicate Covered(r: NodeRows, s: int) {
    (exists j :: j in r.targets && r.targets[j].number == s) || s in r.tombstones || s in r.retirements
  }

  /** Sequence soundness. Rows that predate the protocol carry number zero. */
  ghost predicate Sound(r: NodeRows) {
    && (forall j :: j in r.targets ==> r.targets[j].number >= 0)
    && (forall i, j :: i in r.targets && j in r.targets && i != j && r.targets[i].number == r.targets[j].number
          ==> r.targets[i].number == 0)
    && match r.stream
       case None =>
         r.tombstones == {} && r.retirements == {} && forall j :: j in r.targets ==> r.targets[j].number == 0
       case Some(st) =>
         && 0 <= st.retired < st.nextSeq
         && (forall j :: j in r.targets && r.targets[j].number > 0
               ==> r.targets[j].number < st.nextSeq && r.targets[j].streamId == st.id)
         && (forall s :: s in r.tombstones || s in r.retirements ==> 0 < s < st.nextSeq)
         && (forall s :: st.retired < s < st.nextSeq ==> Covered(r, s))
  }

  /** An undisposed unknown of a sequenced target keeps the node isolated. */
  ghost predicate FailClosed(r: NodeRows) {
    forall j :: j in r.targets && r.targets[j].number > 0 && r.targets[j].status == Unknown
      ==> r.stream.Some? && r.stream.value.control != Open
  }

  /** Everything the stored watermark claims is closed here or was reported by the agent. */
  ghost predicate Justified(r: NodeRows, reported: int) {
    r.stream.Some? ==> forall s :: 1 <= s <= r.stream.value.retired ==> s in ClosedSeqs(r) || s <= reported
  }

  /** The order in which a node's rows evolve when the database is not restored. */
  ghost predicate Forward(r: NodeRows, r': NodeRows) {
    && ClosedSeqs(r) <= ClosedSeqs(r')
    && (r.stream.Some? ==>
          && r'.stream.Some? && r'.stream.value.id == r.stream.value.id
          && r.stream.value.nextSeq <= r'.stream.value.nextSeq
          && r.stream.value.retired <= r'.stream.value.retired)
  }

  /** What one transaction keeps. */
  ghost predicate Kept(r: NodeRows, r': NodeRows, reported: int) {
    && Sound(r') && Forward(r, r')
    && (FailClosed(r) ==> FailClosed(r'))
    && (Justified(r, reported) ==> Justified(r', reported))
  }

  lemma ForwardTransitive(a: NodeRows, b: NodeRows, c: NodeRows)
    requires Forward(a, b) && Forward(b, c)
    ensures Forward(a, c)
  {
  }

  /** What any number of transactions keep. */
  ghost predicate Evolves(r: NodeRows, r': NodeRows) {
    && (Sound(r) ==> Sound(r') && Forward(r, r'))
    && (Sound(r) && FailClosed(r) ==> FailClosed(r'))
  }

  lemma EvolvesTransitive(a: NodeRows, b: NodeRows, c: NodeRows)
    requires Evolves(a, b) && Evolves(b, c)
    ensures Evolves(a, c)
  {
    if Sound(a) { ForwardTransitive(a, b, c); }
  }

  // ---------------------------------------------------------------- building blocks

  lemma ClosedBounds(r: NodeRows)
    requires Sound(r) && r.stream.Some?
    ensures forall s :: s in ClosedSeqs(r) ==> 0 < s < r.stream.value.nextSeq
    ensures Prefix(ClosedSeqs(r)) < r.stream.value.nextSeq
  {
    var w := Prefix(ClosedSeqs(r));
    assert w >= 1 ==> w in ClosedSeqs(r);
  }

  lemma AdvanceKeeps(r: NodeRows, reported: int)
    requires Sound(r)
    ensures Sound(Advance(r)) && Forward(r, Advance(r))
    ensures FailClosed(r) ==> FailClosed(Advance(r))
    ensures Justified(r, reported) ==> Justified(Advance(r), reported)
  {
    var r' := Advance(r);
    assert ClosedSeqs(r') == ClosedSeqs(r);
    if r.stream.Some? {
      ClosedBounds(r);
      forall s | r'.stream.value.retired < s < r'.stream.value.nextSeq
        ensures Covered(r', s)
      {
        assert Covered(r, s);
      }
    }
  }

  lemma ControlKeeps(r: NodeRows, c: Control, reported: int)
    requires Sound(r)
    ensures Sound(WithControl(r, c)) && Forward(r, WithControl(r, c))
    ensures Justified(r, reported) ==> Justified(WithControl(r, c), reported)
    ensures ClosedSeqs(WithControl(r, c)) == ClosedSeqs(r)
  {
    var r' := WithControl(r, c);
    assert TerminalSeqs(r') == TerminalSeqs(r);
    if r.stream.Some? {
      forall s | r'.stream.value.retired < s < r'.stream.value.nextSeq
        ensures Covered(r', s)
      {
        assert Covered(r, s);
      }
    }
  }

  /** Rewriting a target's row keeps the sequences; a legal status change keeps them closed. */
  lemma TargetKeeps(r: NodeRows, job: JobId, t: Target, reported: int)
    requires Sound(r) && job in r.targets
    requires t.number == r.targets[job].number && t.streamId == r.targets[job].streamId
    requires Terminal(r.targets[job].status) ==> Terminal(t.status)
    ensures Sound(WithTarget(r, job, t)) && Forward(r, WithTarget(r, job, t))
    ensures Justified(r, reported) ==> Justified(WithTarget(r, job, t), reported)
  {
    var r' := WithTarget(r, job, t);
    forall s | s in TerminalSeqs(r)
      ensures s in TerminalSeqs(r')
    {
      var j :| j in r.targets && r.targets[j].number > 0 && Terminal(r.targets[j].status) && s == r.targets[j].number;
      assert j in r'.targets && r'.targets[j].number == s;
    }
    if r.stream.Some? {
      forall s | r'.stream.value.retired < s < r'.stream.value.nextSeq
        ensures Covered(r', s)
      {
        assert Covered(r, s);
        if j :| j in r.targets && r.targets[j].number == s {
          assert j in r'.targets && r'.targets[j].number == s;
        }
      }
    }
  }

  lemma EnsureStreamKeeps(r: NodeRows, newId: StreamId, reported: int)
    requires Sound(r)
    ensures Kept(r, EnsureStream(r, newId), reported)
    ensures r.stream.Some? ==> EnsureStream(r, newId) == r
  {
    var r' := EnsureStream(r, newId);
    assert TerminalSeqs(r') == TerminalSeqs(r);
  }

  // ---------------------------------------------------------------- transactions

  /** A report changes its own target only, and not its sequence. */
  lemma ReportedTargets(r: NodeRows, job: JobId, status: Status, version: string, now: int)
    requires job in r.targets
    ensures var t' := Report(r, job, status, version, now).targets[job];
      Report(r, job, status, version, now).targets == r.targets[job := t']
      && t'.status == status && t'.number == r.targets[job].number
  {
  }

  lemma ReportKeeps(r: NodeRows, job: JobId, status: Status, version: string, now: int, reported: int)
    requires Sound(r) && job in r.targets
    requires Terminal(r.targets[job].status) ==> Terminal(status)
    ensures Kept(r, Report(r, job, status, version, now), reported)
  {
    var t := r.targets[job];
    var t' := t.(status := status, updatedAt := now,
      reportedVersion := if version != "" then version else t.reportedVersion);
    var r1 := WithTarget(r, job, t');
    TargetKeeps(r, job, t', reported);
    var blocks := status == Unknown && t.number > 0;
    var r2 := if blocks then WithControl(r1, Blocked) else r1;
    if blocks { ControlKeeps(r1, Blocked, reported); }
    assert FailClosed(r) ==> FailClosed(r2);
    ForwardTransitive(r, r1, r2);
    if Terminal(status) && t.number > 0 {
      AdvanceKeeps(r2, reported);
      ForwardTransitive(r, r2, Advance(r2));
    }
  }

  lemma TransitionKeeps(r: NodeRows, job: JobId, status: Status, version: string, now: int, reported: int)
    requires Sound(r)
    ensures Kept(r, Transition(r, job, status, version, now), reported)
  {
    if Commits(r, job, status) {
      if r.targets[job].status != status { ChangeClimbs(r.targets[job].status, status); }
      ReportKeeps(r, job, status, version, now, reported);
    }
  }

  lemma BackfillRecordKeeps(r: NodeRows, rec: RecordReport, now: int, reported: int)
    requires Sound(r)
    ensures Kept(r, BackfillRecord(r, rec, now), reported)
  {
    if RecordApplies(r, rec) {
      var t := r.targets[rec.jobId];
      if t.status != rec.status { ChangeClimbs(t.status, rec.status); }
      var t' := t.(status := rec.status, updatedAt := now, reportedVersion := rec.reportedVersion);
      var r1 := WithTarget(r, rec.jobId, t');
      TargetKeeps(r, rec.jobId, t', reported);
      if rec.status == Unknown {
        ControlKeeps(r1, Blocked, reported);
        ForwardTransitive(r, r1, WithControl(r1, Blocked));
      }
    }
  }

  lemma {:induction false} BackfillRecordsKeep(r: NodeRows, records: seq<RecordReport>, now: int, reported: int)
    requires Sound(r)
    ensures Kept(r, BackfillRecords(r, records, now), reported)
    decreases |records|
  {
    if records != [] {
      var front := records[..|records| - 1];
      BackfillRecordsKeep(r, front, now, reported);
      var mid := BackfillRecords(r, front, now);
      BackfillRecordKeeps(mid, records[|records| - 1], now, reported);
      ForwardTransitive(r, mid, BackfillRecords(r, records, now));
    }
  }

  lemma BackfillInProgressKeeps(r: NodeRows, ip: Option<InProgressReport>, reported: int)
    requires Sound(r)
    ensures var r' := BackfillInProgress(r, ip);
      && Sound(r') && Forward(r, r') && (Justified(r, reported) ==> Justified(r', reported))
      && ((ip.Some? ==> InProgress(ip.value.stage)) && FailClosed(r) ==> FailClosed(r'))
  {
    if ip.Some? && InProgressApplies(r, ip.value) {
      var t := r.targets[ip.value.jobId];
      if t.status != ip.value.stage { ChangeClimbs(t.status, ip.value.stage); }
      TargetKeeps(r, ip.value.jobId, t.(status := ip.value.stage), reported);
    }
  }

  lemma TombstoneKeeps(r: NodeRows, job: JobId, now: int, reported: int)
    requires Sound(r) && job in r.targets && r.targets[job].number > 0
    ensures Kept(r, Tombstone(r, job, r.targets[job].number, now), reported)
  {
    var number := r.targets[job].number;
    var r1 := r.(tombstones := r.tombstones + {number});
    assert TerminalSeqs(r1) == TerminalSeqs(r);
    forall s | r1.stream.value.retired < s < r1.stream.value.nextSeq
      ensures Covered(r1, s)
    {
      assert Covered(r, s);
    }
    var t' := r.targets[job].(cancelIntentAt := now);
    TargetKeeps(r1, job, t', reported);
    var r2 := WithTarget(r1, job, t');
    ForwardTransitive(r, r1, r2);
    AdvanceKeeps(r2, reported);
    ForwardTransitive(r, r2, Advance(r2));
  }

  lemma RemoveKeepsClosed(r: NodeRows, job: JobId)
    requires job in r.targets
    ensures ClosedSeqs(r) <= ClosedSeqs(WithoutRow(r, job, r.targets[job].number))
  {
    var r' := WithoutRow(r, job, r.targets[job].number);
    forall s | s in TerminalSeqs(r)
      ensures s in ClosedSeqs(r')
    {
      var j :| j in r.targets && r.targets[j].number > 0 && Terminal(r.targets[j].status) && s == r.targets[j].number;
      if j == job {
        assert s in r'.retirements;
      } else {
        assert j in r'.targets && r'.targets[j].number == s;
        assert s in TerminalSeqs(r');
      }
    }
  }

  lemma RemoveKeepsCover(r: NodeRows, job: JobId, s: int)
    requires job in r.targets && Covered(r, s) && s > 0
    ensures Covered(WithoutRow(r, job, r.targets[job].number), s)
  {
    var r' := WithoutRow(r, job, r.targets[job].number);
    if j :| j in r.targets && r.targets[j].number == s && j != job {
      assert j in r'.targets && r'.targets[j].number == s;
    }
  }

  lemma RemoveKeepsSound(r: NodeRows, job: JobId)
    requires Sound(r) && job in r.targets
    ensures Sound(WithoutRow(r, job, r.targets[job].number))
  {
    var r' := WithoutRow(r, job, r.targets[job].number);
    assert forall j :: j in r'.targets ==> j in r.targets && r'.targets[j] == r.targets[j];
    if r.stream.Some? {
      forall s | r'.stream.value.retired < s < r'.stream.value.nextSeq
        ensures Covered(r', s)
      {
        RemoveKeepsCover(r, job, s);
      }
    }
  }

  /** A detail row disappears while its sequence is retired. */
  lemma RemoveKeeps(r: NodeRows, job: JobId, reported: int)
    requires Sound(r) && job in r.targets
    ensures Kept(r, WithoutRow(r, job, r.targets[job].number), reported)
  {
    RemoveKeepsClosed(r, job);
    RemoveKeepsSound(r, job);
  }

  lemma PruneKeeps(r: NodeRows, job: JobId, reported: int)
    requires Sound(r) && job in r.targets
    ensures Kept(r, PruneRow(r, job, r.targets[job].number), reported)
  {
    var r1 := WithoutRow(r, job, r.targets[job].number);
    RemoveKeeps(r, job, reported);
    AdvanceKeeps(r1, reported);
    ForwardTransitive(r, r1, Advance(r1));
  }

  /** The rows with a new target under the next sequence. */
  function Added(r: NodeRows, job: JobId, t: Target): NodeRows
    requires r.stream.Some?
  {
    WithTarget(r.(stream := Some(r.stream.value.(nextSeq := t.number + 1))), job, t)
  }

  lemma AddKeepsClosed(r: NodeRows, job: JobId, t: Target)
    requires r.stream.Some? && job !in r.targets
    ensures ClosedSeqs(r) <= ClosedSeqs(Added(r, job, t))
  {
    var r' := Added(r, job, t);
    forall s | s in TerminalSeqs(r)
      ensures s in TerminalSeqs(r')
    {
      var j :| j in r.targets && r.targets[j].number > 0 && Terminal(r.targets[j].status) && s == r.targets[j].number;
      assert j in r'.targets && r'.targets[j].number == s;
    }
  }

  lemma AddKeepsCover(r: NodeRows, job: JobId, t: Target, s: int)
    requires r.stream.Some? && job !in r.targets && (Covered(r, s) || s == t.number)
    ensures Covered(Added(r, job, t), s)
  {
    var r' := Added(r, job, t);
    assert r'.targets[job].number == t.number;
    if j :| j in r.targets && r.targets[j].number == s {
      assert j in r'.targets && r'.targets[j].number == s;
    }
  }

  lemma AddKeeps(r: NodeRows, job: JobId, t: Target, reported: int)
    requires Sound(r) && r.stream.Some? && job !in r.targets
    requires t.number == r.stream.value.nextSeq && t.streamId == r.stream.value.id && t.status == Pending
    ensures Kept(r, Added(r, job, t), reported)
  {
    AddKeepsClosed(r, job, t);
    AddKeepsSound(r, job, t);
  }

  lemma AddKeepsSound(r: NodeRows, job: JobId, t: Target)
    requires Sound(r) && r.stream.Some? && job !in r.targets
    requires t.number == r.stream.value.nextSeq && t.streamId == r.stream.value.id
    ensures Sound(Added(r, job, t))
  {
    var r' := Added(r, job, t);
    forall s | r'.stream.value.retired < s < r'.stream.value.nextSeq
      ensures Covered(r', s)
    {
      AddKeepsCover(r, job, t, s);
    }
  }

  lemma KeptTransitive(a: NodeRows, b: NodeRows, c: NodeRows, reported: int)
    requires Kept(a, b, reported) && Kept(b, c, reported)
    ensures Kept(a, c, reported)
  {
    ForwardTransitive(a, b, c);
  }

  /** An allocation takes the next sequence, which no earlier target of the node carries. */
  lemma AllocateTakesNext(r: NodeRows, job: JobId, sha: Hash, newId: StreamId, now: int)
    requires Sound(r) && job !in r.targets
    ensures var r' := Allocate(r, job, sha, newId, now);
      && (forall j :: j in r.targets ==> r.targets[j].number < r'.targets[job].number)
      && (r.stream.Some? ==> r'.targets[job].number == r.stream.value.nextSeq)
  {
    EnsureStreamKeeps(r, newId, 0);
    var r0 := EnsureStream(r, newId);
    assert forall j :: j in r0.targets ==> r0.targets[j].number < r0.stream.value.nextSeq;
  }

  lemma AllocateKeeps(r: NodeRows, job: JobId, sha: Hash, newId: StreamId, now: int, reported: int)
    requires Sound(r) && job !in r.targets
    ensures Kept(r, Allocate(r, job, sha, newId, now), reported)
  {
    EnsureStreamKeeps(r, newId, reported);
    var r0, t := EnsureStream(r, newId), NewTarget(EnsureStream(r, newId), sha, now);
    AddKeeps(r0, job, t, reported);
    KeptTransitive(r, r0, Added(r0, job, t), reported);
    AllocateAdds(r, job, sha, newId, now);
  }

  function NewTarget(r: NodeRows, sha: Hash, now: int): Target
    requires r.stream.Some?
  {
    Target(Pending, r.stream.value.nextSeq, r.stream.value.id, DeliveryPending, sha, now, "", 0)
  }

  lemma AllocateAdds(r: NodeRows, job: JobId, sha: Hash, newId: StreamId, now: int)
    ensures Allocate(r, job, sha, newId, now)
            == Added(EnsureStream(r, newId), job, NewTarget(EnsureStream(r, newId), sha, now))
  {
  }

  lemma DeliveryKeeps(r: NodeRows, job: JobId, d: Delivery, now: int, reported: int)
    requires Sound(r)
    ensures Kept(r, RecordDelivery(r, job, d, now), reported)
  {
    if job in r.targets {
      TargetKeeps(r, job, r.targets[job].(delivery := d, updatedAt := now), reported);
    }
  }

  lemma ResolveKeeps(r: NodeRows, job: JobId, resolution: Status, now: int, reported: int)
    requires Sound(r)
    ensures Kept(r, ResolveUnknown(r, job, resolution, now), reported)
  {
    if Disposable(r, job, resolution) {
      var t' := r.targets[job].(status := resolution, updatedAt := now);
      var r1 := WithTarget(r, job, t');
      TargetKeeps(r, job, t', reported);
      if !UnknownRemains(r1) {
        ControlKeeps(r1, Open, reported);
        ForwardTransitive(r, r1, WithControl(r1, Open));
      }
    }
  }

  /** Moving both counters of an open stream forward. */
  lemma RaiseKeeps(r: NodeRows, next: int, retired: int)
    requires Sound(r) && r.stream.Some? && r.stream.value.nextSeq <= next && r.stream.value.retired <= retired < next
    requires r.stream.value.nextSeq < next ==> retired == next - 1
    ensures var r' := r.(stream := Some(r.stream.value.(nextSeq := next, retired := retired)));
      && Sound(r') && Forward(r, r') && (FailClosed(r) ==> FailClosed(r'))
      && ClosedSeqs(r') == ClosedSeqs(r)
  {
    var r' := r.(stream := Some(r.stream.value.(nextSeq := next, retired := retired)));
    assert TerminalSeqs(r') == TerminalSeqs(r);
    forall s | retired < s < next
      ensures Covered(r', s)
    {
      assert Covered(r, s);
    }
  }

  lemma RaiseJustified(r: NodeRows, next: int, retired: int, watermark: int, reported: int)
    requires r.stream.Some? && Justified(r, reported)
    requires retired == Max(Max(r.stream.value.retired, watermark), Prefix(ClosedSeqs(r)))
    ensures var st := r.stream.value.(nextSeq := next, retired := retired);
      Justified(r.(stream := Some(st)), Max(reported, watermark))
  {
    var r' := r.(stream := Some(r.stream.value.(nextSeq := next, retired := retired)));
    assert TerminalSeqs(r') == TerminalSeqs(r);
  }

  /** A reconciliation keeps the rows sound when the agent keeps its promise: no watermark without a stream. */
  lemma ReconcileKeeps(r: NodeRows, newId: StreamId, agentStream: StreamId, watermark: int, reported: int)
    requires Sound(r)
    requires agentStream == "" ==> watermark <= 0
    ensures var r' := Reconcile(r, newId, agentStream, watermark);
      && Sound(r') && Forward(r, r') && (FailClosed(r) ==> FailClosed(r'))
      && (Justified(r, reported) ==> Justified(r', Max(reported, watermark)))
  {
    EnsureStreamKeeps(r, newId, reported);
    var r0 := EnsureStream(r, newId);
    var st := r0.stream.value;
    if st.control == Open && (agentStream == "" || agentStream == st.id) {
      ReconcileMatching(r0, newId, agentStream, watermark, reported);
    } else if st.control == Open {
      ControlKeeps(r0, Quarantined, reported);
    }
    assert Reconcile(r0, newId, agentStream, watermark) == Reconcile(r, newId, agentStream, watermark);
    ForwardTransitive(r, r0, Reconcile(r, newId, agentStream, watermark));
  }

  lemma ReconcileMatching(r: NodeRows, newId: StreamId, agentStream: StreamId, watermark: int, reported: int)
    requires Sound(r) && r.stream.Some? && r.stream.value.control == Open
    requires (agentStream == "" ==> watermark <= 0) && (agentStream == "" || agentStream == r.stream.value.id)
    ensures var r' := Reconcile(r, newId, agentStream, watermark);
      && Sound(r') && Forward(r, r') && (FailClosed(r) ==> FailClosed(r'))
      && (Justified(r, reported) ==> Justified(r', Max(reported, watermark)))
  {
    EnsureStreamKeeps(r, newId, reported);
    var r' := Reconcile(r, newId, agentStream, watermark);
    ClosedBounds(r);
    RaiseKeeps(r, r'.stream.value.nextSeq, r'.stream.value.retired);
    if Justified(r, reported) {
      RaiseJustified(r, r'.stream.value.nextSeq, r'.stream.value.retired, watermark, reported);
    }
  }

  /** The promise is needed: without it the stored watermark overtakes the next sequence,
      and soundness holds exactly when the reported watermark stays below the next sequence. */
  lemma ReconcileNeedsPromise(r: NodeRows, newId: StreamId, watermark: int)
    requires Sound(r)
    ensures var st := EnsureStream(r, newId).stream.value;
      Sound(Reconcile(r, newId, "", watermark)) <==> (st.control != Open || watermark < st.nextSeq)
  {
    EnsureStreamKeeps(r, newId, 0);
    var r0 := EnsureStream(r, newId);
    var st := r0.stream.value;
    var r' := Reconcile(r, newId, "", watermark);
    if st.control == Open && watermark < st.nextSeq {
      ClosedBounds(r0);
      RaiseKeeps(r0, st.nextSeq, r'.stream.value.retired);
    }
  }
}
