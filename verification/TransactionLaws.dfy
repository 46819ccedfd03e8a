/**
 What the transactions of the command stream do to a node's rows, in terms of the rows themselves: which sequences
 count as closed, how far the stored watermark rises, and what else changes and what does not.
 */
module TransactionLaws {
  import opened Basics
  import opened Protocol
  import opened RetiredPrefix
  import opened NodeTables
  import opened NodeInvariants

  // ---------------------------------------------------------------- the stored watermark

  /** A sequence is closed by a tombstone, by a retirement, or by a target with an outcome. */
  predicate ClosedIn(r: NodeRows, s: int) {
    s in r.tombstones || s in r.retirements
    || exists j :: j in r.targets && r.targets[j].number == s && Terminal(r.targets[j].status)
  }

  ghost predicate AllClosed(r: NodeRows, w: int) {
    forall s :: 1 <= s <= w ==> ClosedIn(r, s)
  }

  /** No stretch of closed sequences from the first on reaches beyond the stored watermark. */
  ghost predicate CaughtUp(r: NodeRows) {
    r.stream.Some? ==> forall w :: w > 0 && AllClosed(r, w) ==> w <= r.stream.value.retired
  }

  /** The stored watermark is as before, or it rose to the end of the closed stretch. */
  ghost predicate RoseJustly(r: NodeRows, r': NodeRows) {
    r.stream.Some? && r'.stream.Some? ==>
      || r'.stream.value.retired == r.stream.value.retired
      || (r'.stream.value.retired > r.stream.value.retired
          && AllClosed(r', r'.stream.value.retired) && !ClosedIn(r', r'.stream.value.retired + 1))
  }

  lemma ClosedExactly(r: NodeRows, s: int)
    requires s > 0
    ensures s in ClosedSeqs(r) <==> ClosedIn(r, s)
  {
    if exists j :: j in r.targets && r.targets[j].number == s && Terminal(r.targets[j].status) {
      var j :| j in r.targets && r.targets[j].number == s && Terminal(r.targets[j].status);
      assert s in TerminalSeqs(r);
    }
  }

  lemma AllClosedReaches(r: NodeRows, w: nat)
    ensures AllClosed(r, w) <==> w <= Prefix(ClosedSeqs(r))
  {
    var p := Prefix(ClosedSeqs(r));
    ClosedExactly(r, p + 1);
    forall s | 1 <= s <= p
      ensures ClosedIn(r, s)
    {
      ClosedExactly(r, s);
    }
    assert p + 1 <= w && AllClosed(r, w) ==> ClosedIn(r, p + 1);
  }

  /** Advancing the watermark reaches the end of the closed stretch and changes nothing else. */
  lemma AdvanceReaches(r: NodeRows)
    ensures var r' := Advance(r);
      && r'.(stream := r.stream) == r && (r'.stream.Some? <==> r.stream.Some?)
      && (r.stream.Some? ==> r'.stream.value.(retired := r.stream.value.retired) == r.stream.value)
      && CaughtUp(r') && RoseJustly(r, r')
  {
    var r', p := Advance(r), Prefix(ClosedSeqs(r));
    if r.stream.Some? {
      SameRowsClosed(r, r');
      forall w | w > 0 && AllClosed(r', w)
        ensures w <= r'.stream.value.retired
      {
        AllClosedReaches(r', w);
      }
      AllClosedReaches(r', p);
      ClosedExactly(r', p + 1);
    }
  }

  lemma SameRowsClosed(r: NodeRows, r': NodeRows)
    requires r'.targets == r.targets && r'.tombstones == r.tombstones && r'.retirements == r.retirements
    ensures ClosedSeqs(r') == ClosedSeqs(r)
    ensures forall w :: AllClosed(r', w) <==> AllClosed(r, w)
  {
    assert TerminalSeqs(r') == TerminalSeqs(r);
    forall w
      ensures AllClosed(r', w) <==> AllClosed(r, w)
    {
      assert forall s :: ClosedIn(r', s) <==> ClosedIn(r, s);
    }
  }

  // ---------------------------------------------------------------- reports

  /** One target's row changed, and neither tombstones nor retirements. */
  predicate OnlyTarget(r: NodeRows, r': NodeRows, job: JobId) {
    && job in r.targets && job in r'.targets && r'.targets == r.targets[job := r'.targets[job]]
    && r'.tombstones == r.tombstones && r'.retirements == r.retirements
  }

  /** The stream is the same but for its control state and its watermark. */
  predicate SameStream(r: NodeRows, r': NodeRows, control: Control) {
    if r.stream.None? then r'.stream.None?
    else
      r'.stream.Some?
      && r'.stream.value.(control := r.stream.value.control, retired := r.stream.value.retired) == r.stream.value
      && r'.stream.value.control == control
  }

  function ControlIn(r: NodeRows): Control {
    if r.stream.Some? then r.stream.value.control else Open
  }

  lemma AdvanceWithin(r: NodeRows, r1: NodeRows, job: JobId, control: Control)
    requires OnlyTarget(r, r1, job) && SameStream(r, r1, control)
    requires r1.stream.Some? ==> r1.stream.value.retired == r.stream.value.retired
    ensures var r' := Advance(r1);
      OnlyTarget(r, r', job) && SameStream(r, r', control) && CaughtUp(r') && RoseJustly(r, r')
      && r'.targets == r1.targets
  {
    AdvanceReaches(r1);
    SameRowsClosed(r1, Advance(r1));
  }

  /** A committed report: the target takes the status, the time and a version that is named, and keeps the rest; an
      unknown outcome of a sequenced target blocks the node; an outcome of a sequenced target lets the stored
      watermark catch up, and no other report moves it. */
  ghost predicate Committed(r: NodeRows, r': NodeRows, job: JobId, status: Status, version: string, now: int) {
    && OnlyTarget(r, r', job)
    && var t, t' := r.targets[job], r'.targets[job];
    && t'.status == status && t'.updatedAt == now && t'.number == t.number && t'.streamId == t.streamId
    && t'.delivery == t.delivery && t'.sha == t.sha && t'.cancelIntentAt == t.cancelIntentAt
    && t'.reportedVersion == (if version == "" then t.reportedVersion else version)
    && SameStream(r, r', if status == Unknown && t.number > 0 then Blocked else ControlIn(r))
    && (if Terminal(status) && t.number > 0 then CaughtUp(r') && RoseJustly(r, r')
        else r'.stream.Some? ==> r'.stream.value.retired == r.stream.value.retired)
  }

  lemma ReportMeans(r: NodeRows, job: JobId, status: Status, version: string, now: int)
    requires job in r.targets
    ensures Committed(r, Report(r, job, status, version, now), job, status, version, now)
  {
    var t := r.targets[job];
    var r1 := WithTarget(r, job, t.(
      status := status, updatedAt := now,
      reportedVersion := if version != "" then version else t.reportedVersion));
    var r2 := if status == Unknown && t.number > 0 then WithControl(r1, Blocked) else r1;
    if Terminal(status) && t.number > 0 {
      AdvanceWithin(r, r2, job, if status == Unknown then Blocked else ControlIn(r));
    }
  }

  /** A report changes the rows exactly if its job has a target and the move is legal. */
  lemma TransitionMeans(r: NodeRows, job: JobId, status: Status, version: string, now: int)
    ensures if job in r.targets && CanMove(r.targets[job].status, status)
            then Committed(r, Transition(r, job, status, version, now), job, status, version, now)
            else Transition(r, job, status, version, now) == r
  {
    if Commits(r, job, status) { ReportMeans(r, job, status, version, now); }
  }

  /** A handshake record is applied exactly if it names a target by job and sequence and moves it legally; the
      stored watermark stays. */
  lemma RecordMeans(r: NodeRows, rec: RecordReport, now: int)
    ensures var r', job := BackfillRecord(r, rec, now), rec.jobId;
      if rec.number > 0 && job != "" && job in r.targets && r.targets[job].number == rec.number
         && CanMove(r.targets[job].status, rec.status)
      then
        && OnlyTarget(r, r', job)
        && r'.targets[job] == r.targets[job].(
             status := rec.status, updatedAt := now, reportedVersion := rec.reportedVersion)
        && SameStream(r, r', if rec.status == Unknown then Blocked else ControlIn(r))
        && (r'.stream.Some? ==> r'.stream.value.retired == r.stream.value.retired)
      else r' == r
  {
  }

  /** So is the unfinished update of a handshake, which changes the status only. */
  lemma StageMeans(r: NodeRows, ip: InProgressReport)
    ensures var r', job := BackfillInProgress(r, Some(ip)), ip.jobId;
      if ip.number > 0 && job != "" && job in r.targets && r.targets[job].number == ip.number
         && CanMove(r.targets[job].status, ip.stage)
      then OnlyTarget(r, r', job) && r'.targets[job] == r.targets[job].(status := ip.stage) && r'.stream == r.stream
      else r' == r
    ensures BackfillInProgress(r, None) == r
  {
  }

  /** An outcome for the sequence right after the watermark carries the watermark past it exactly if every sequence
      before it is closed in the rows. */
  lemma OutcomePassesExactly(r: NodeRows, job: JobId, status: Status, version: string, now: int)
    requires Sound(r) && r.stream.Some? && job in r.targets && CanMove(r.targets[job].status, status)
    requires Terminal(status) && r.targets[job].number == r.stream.value.retired + 1
    ensures var r' := Transition(r, job, status, version, now);
      r'.stream.Some? && (r'.stream.value.retired >= r.targets[job].number <==> AllClosed(r, r.stream.value.retired))
  {
    var r', n := Transition(r, job, status, version, now), r.targets[job].number;
    TransitionMeans(r, job, status, version, now);
    forall s | 1 <= s < n
      ensures ClosedIn(r', s) <==> ClosedIn(r, s)
    {
      OthersClosed(r, r', job, s);
    }
    assert r'.targets[job].number == n;
    assert ClosedIn(r', n);
    assert AllClosed(r, n - 1) ==> AllClosed(r', n);
  }

  lemma OthersClosed(r: NodeRows, r': NodeRows, job: JobId, s: int)
    requires OnlyTarget(r, r', job) && r'.targets[job].number == r.targets[job].number != s
    ensures ClosedIn(r', s) <==> ClosedIn(r, s)
  {
    forall j | j in r.targets && j != job
      ensures r'.targets[j] == r.targets[j]
    {
    }
  }

  /** The rows of a server that lost everything and has learnt from the agent that five sequences are done. */
  const LEARNT := NodeRows(Some(Stream("s", 6, 5, Open)), map[], {}, {})

  lemma NothingClosed(r: NodeRows)
    requires r.targets == map[] && r.tombstones == {} && r.retirements == {}
    ensures Prefix(ClosedSeqs(r)) == 0
  {
    ClosedExactly(r, 1);
    PrefixUnique(ClosedSeqs(r), 0, Prefix(ClosedSeqs(r)));
  }

  lemma LearntByReconciling(newId: StreamId)
    ensures Reconcile(EMPTY_ROWS.(stream := Some(Stream("s", 1, 0, Open))), newId, "s", 5) == LEARNT
  {
    NothingClosed(EMPTY_ROWS.(stream := Some(Stream("s", 1, 0, Open))));
  }

  /** The condition can fail: on such a server the outcome of the next command does not move the watermark, which
      waits for the agent's next report. */
  lemma WatermarkWaits(job: JobId, sha: Hash, newId: StreamId, now: int)
    ensures LEARNT == Reconcile(EMPTY_ROWS.(stream := Some(Stream("s", 1, 0, Open))), newId, "s", 5)
    ensures var r := Allocate(LEARNT, job, sha, newId, now);
      var r' := Transition(r, job, Succeeded, "", now);
      && r.targets[job].number == 6 && StatusOf(r', job) == Some(Succeeded)
      && r'.stream.Some? && r'.stream.value.retired == 5
  {
    var r := Allocate(LEARNT, job, sha, newId, now);
    LearntByReconciling(newId);
    assert Sound(LEARNT);
    AllocateKeeps(LEARNT, job, sha, newId, now, 0);
    assert !ClosedIn(r, 1) && !AllClosed(r, 5);
    TransitionMeans(r, job, Succeeded, "", now);
    OutcomePassesExactly(r, job, Succeeded, "", now);
  }

  // ---------------------------------------------------------------- cancels, dispositions, deletions

  /** A tombstone closes its sequence and lets the watermark catch up; the target keeps its status and is marked. */
  ghost predicate Tombstoned(r: NodeRows, r': NodeRows, job: JobId, number: int, now: int) {
    && r'.tombstones == r.tombstones + {number} && r'.retirements == r.retirements
    && (if job in r.targets
        then r'.targets == r.targets[job := r.targets[job].(cancelIntentAt := now)] else r'.targets == r.targets)
    && SameStream(r, r', ControlIn(r)) && CaughtUp(r') && RoseJustly(r, r') && ClosedIn(r', number)
  }

  lemma TombstoneMeans(r: NodeRows, job: JobId, number: int, now: int)
    ensures Tombstoned(r, Tombstone(r, job, number, now), job, number, now)
  {
    var r1 := r.(tombstones := r.tombstones + {number});
    var r2 := if job in r.targets then WithTarget(r1, job, r.targets[job].(cancelIntentAt := now)) else r1;
    AdvanceReaches(r2);
  }

  /** A disposition gives an unknown target the operator's resolution; the node opens exactly if no other unknown
      remains. Anything else changes nothing. */
  ghost predicate DisposedAs(r: NodeRows, r': NodeRows, job: JobId, resolution: Status, now: int) {
    && OnlyTarget(r, r', job)
    && r'.targets[job] == r.targets[job].(status := resolution, updatedAt := now)
    && SameStream(r, r',
         if forall j :: j in r.targets && j != job ==> r.targets[j].status != Unknown then Open else ControlIn(r))
    && (r'.stream.Some? ==> r'.stream.value.retired == r.stream.value.retired)
  }

  lemma ResolveMeans(r: NodeRows, job: JobId, resolution: Status, now: int)
    ensures if job in r.targets && r.targets[job].status == Unknown && resolution in {Succeeded, Failed, Cancelled}
            then DisposedAs(r, ResolveUnknown(r, job, resolution, now), job, resolution, now)
            else ResolveUnknown(r, job, resolution, now) == r
  {
    if Disposable(r, job, resolution) {
      var r1 := WithTarget(r, job, r.targets[job].(status := resolution, updatedAt := now));
      forall j | j in r.targets && j != job
        ensures j in r1.targets && r1.targets[j] == r.targets[j]
      {
      }
    }
  }

  /** A deleted row leaves its sequence, if it has one, among the retirements, and the watermark catches up. */
  lemma PruneMeans(r: NodeRows, job: JobId, number: int)
    ensures var r' := PruneRow(r, job, number);
      && r'.targets == r.targets - {job} && r'.tombstones == r.tombstones
      && r'.retirements == r.retirements + (if number > 0 then {number} else {})
      && SameStream(r, r', ControlIn(r)) && CaughtUp(r') && RoseJustly(r, r')
  {
    AdvanceReaches(WithoutRow(r, job, number));
  }

  /** Rows whose outcome is still open on the agent's side, or with the operator, are not deleted. */
  lemma ProtectedExactly(t: Target)
    ensures Protected(t) <==> t.status in {Accepted, Downloading, Verifying, Restarting, Unknown}
  {
  }

  /** A delivery mark changes the delivery state and the time of its target. */
  lemma DeliveryMeans(r: NodeRows, job: JobId, d: Delivery, now: int)
    ensures var r' := RecordDelivery(r, job, d, now);
      if job in r.targets then
        OnlyTarget(r, r', job) && r'.stream == r.stream
        && r'.targets[job] == r.targets[job].(delivery := d, updatedAt := now)
      else r' == r
  {
  }

  // ---------------------------------------------------------------- allocation and reconciliation

  /** A node's stream is created open under the fresh id, or kept; only a next sequence that is not positive is
      repaired. */
  lemma EnsureMeans(r: NodeRows, newId: StreamId)
    ensures var r' := EnsureStream(r, newId);
      && r'.(stream := r.stream) == r && r'.stream.Some?
      && (r.stream.None? ==> r'.stream.value == Stream(newId, 1, 0, Open))
      && (r.stream.Some? && r.stream.value.nextSeq > 0 ==> r' == r)
      && (r.stream.Some? && r.stream.value.nextSeq <= 0 ==>
            r'.stream.value == r.stream.value.(nextSeq := r.stream.value.retired + 1))
  {
  }

  /** A new target is pending, undelivered, of the node's stream, and takes the next sequence; a node without a stream
      gets an open one of the fresh id, starting at one. */
  lemma AllocateMeans(r: NodeRows, job: JobId, sha: Hash, newId: StreamId, now: int)
    requires Sound(r)
    ensures var r' := Allocate(r, job, sha, newId, now);
      && job in r'.targets && r'.targets == r.targets[job := r'.targets[job]]
      && r'.tombstones == r.tombstones && r'.retirements == r.retirements && r'.stream.Some?
      && var t, st := r'.targets[job], r'.stream.value;
      && t.status == Pending && t.delivery == DeliveryPending && t.sha == sha && t.updatedAt == now
      && t.streamId == st.id && t.reportedVersion == "" && t.cancelIntentAt == 0 && st.nextSeq == t.number + 1
      && (r.stream.None? ==> st == Stream(newId, 2, 0, Open) && t.number == 1)
      && (r.stream.Some? ==>
            t.number == r.stream.value.nextSeq && st.(nextSeq := r.stream.value.nextSeq) == r.stream.value)
  {
  }

  /** An isolated node is left as it is. An open one with another stream than the agent's is quarantined, and
      otherwise nothing changes. Where they agree the watermark covers the agent's report and catches up with what is
      closed here, and an agent that names the stream lifts the next sequence beyond its watermark. */
  lemma ReconcileMeans(r: NodeRows, newId: StreamId, agentStream: StreamId, watermark: int)
    requires Sound(r)
    ensures var r' := Reconcile(r, newId, agentStream, watermark);
      var st := if r.stream.Some? then r.stream.value else Stream(newId, 1, 0, Open);
      && r'.(stream := r.stream) == r && r'.stream.Some?
      && var st' := r'.stream.value;
      && st'.id == st.id
      && (if st.control != Open then st' == st
          else if agentStream != "" && agentStream != st.id then st' == st.(control := Quarantined)
          else
            && st'.control == Open && watermark <= st'.retired && st.retired <= st'.retired && CaughtUp(r')
            && (st'.retired == st.retired || st'.retired == watermark
                || (AllClosed(r', st'.retired) && !ClosedIn(r', st'.retired + 1)))
            && st.nextSeq <= st'.nextSeq && (agentStream != "" ==> watermark < st'.nextSeq)
            && (st'.nextSeq == st.nextSeq || (agentStream != "" && st'.nextSeq == watermark + 1)))
  {
    var r0, r' := EnsureStream(r, newId), Reconcile(r, newId, agentStream, watermark);
    SameRowsClosed(r, r0);
    SameRowsClosed(r, r');
    var p := Prefix(ClosedSeqs(r0));
    AllClosedReaches(r', p);
    ClosedExactly(r', p + 1);
    forall w | w > 0 && AllClosed(r', w)
      ensures w <= p
    {
      AllClosedReaches(r', w);
    }
  }

  /** A quarantine reported by the agent isolates the node, which gets a stream if it had none. */
  lemma QuarantineMeans(r: NodeRows, newId: StreamId)
    requires Sound(r)
    ensures var r' := QuarantineNode(r, newId);
      && r'.(stream := r.stream) == r
      && var st := if r.stream.Some? then r.stream.value else Stream(newId, 1, 0, Open);
      r'.stream == Some(st.(control := Quarantined))
  {
  }
}
