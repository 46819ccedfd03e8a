/**
 The status of a job, aggregated from the statuses of its targets on all nodes.
 */
module JobAggregate {
  import opened Protocol

  predicate Active(s: Status) {
    s.Dispatched? || InProgress(s)
  }

  /** What the aggregate means: it depends only on which statuses occur. */
  function Aggregate(statuses: set<Status>): JobStatus {
    if forall s :: s in statuses ==> s == Pending then JobPending
    else if exists s :: s in statuses && (s == Pending || Active(s)) then JobRunning
    else if forall s :: s in statuses ==> s == Succeeded then JobCompleted
    else if Succeeded !in statuses then JobFailed
    else JobPartialFailed
  }

  function Actives(rows: multiset<Status>): nat {
    rows[Dispatched] + rows[Accepted] + rows[Downloading] + rows[Verifying] + rows[Restarting]
  }

  function Failures(rows: multiset<Status>): nat {
    rows[Failed] + rows[Unknown] + rows[Timeout] + rows[Cancelled] + rows[OfflineSkipped]
  }

  lemma ActiveOccurs(rows: seq<Status>)
    ensures Actives(multiset(rows)) > 0 <==> exists s :: s in rows && Active(s)
  {
    assert forall s :: s in rows <==> multiset(rows)[s] > 0;
    if Actives(multiset(rows)) > 0 {
      assert Dispatched in rows || Accepted in rows || Downloading in rows || Verifying in rows || Restarting in rows;
    }
  }

  lemma FailureOccurs(rows: seq<Status>)
    ensures Failures(multiset(rows)) == 0 <==> forall s :: s in rows ==> s == Succeeded || !Terminal(s)
  {
    assert forall s :: s in rows <==> multiset(rows)[s] > 0;
  }

  lemma CountOne(rows: multiset<Status>, s: Status)
    ensures Actives(rows + multiset{s}) == Actives(rows) + (if Active(s) then 1 else 0)
    ensures Failures(rows + multiset{s}) == Failures(rows) + (if Terminal(s) && s != Succeeded then 1 else 0)
    ensures (rows + multiset{s})[Pending] == rows[Pending] + (if s == Pending then 1 else 0)
    ensures (rows + multiset{s})[Succeeded] == rows[Succeeded] + (if s == Succeeded then 1 else 0)
  {
  }

  /** The counting loop over the rows of a job. */
  method CountStatuses(rows: seq<Status>) returns (pending: nat, active: nat, success: nat, failure: nat)
    ensures pending + active + success + failure == |rows|
    ensures pending == multiset(rows)[Pending] && active == Actives(multiset(rows))
    ensures success == multiset(rows)[Succeeded] && failure == Failures(multiset(rows))
  {
    pending, active, success, failure := 0, 0, 0, 0;
    for i := 0 to |rows|
      invariant pending + active + success + failure == i
      invariant pending == multiset(rows[..i])[Pending] && active == Actives(multiset(rows[..i]))
      invariant success == multiset(rows[..i])[Succeeded] && failure == Failures(multiset(rows[..i]))
    {
      assert rows[..i + 1] == rows[..i] + [rows[i]];
      CountOne(multiset(rows[..i]), rows[i]);
      match rows[i] {
        case Pending => pending := pending + 1;
        case Dispatched | Accepted | Downloading | Verifying | Restarting => active := active + 1;
        case Succeeded => success := success + 1;
        case _ => failure := failure + 1;
      }
    }
    assert rows[..|rows|] == rows;
  }

  /** The counts decide the aggregate. */
  lemma Decided(rows: seq<Status>)
    requires |rows| > 0
    ensures var counts, status := multiset(rows), Aggregate(set s | s in rows);
      && (Actives(counts) == Failures(counts) == counts[Succeeded] == 0 ==> status == JobPending)
      && (counts[Pending] > 0 && Failures(counts) + counts[Succeeded] > 0 ==> status == JobRunning)
      && (Actives(counts) > 0 ==> status == JobRunning)
      && (counts[Pending] == Actives(counts) == Failures(counts) == 0 ==> status == JobCompleted)
      && (counts[Pending] == Actives(counts) == counts[Succeeded] == 0 ==> status == JobFailed)
      && (counts[Pending] == Actives(counts) == 0 && Failures(counts) > 0 && counts[Succeeded] > 0
          ==> status == JobPartialFailed)
  {
    ActiveOccurs(rows);
    FailureOccurs(rows);
    var statuses := set s | s in rows;
    assert rows[0] in statuses;
    assert forall s :: s in statuses <==> multiset(rows)[s] > 0;
  }

  method AggregateUpdateJobStatus(rows: seq<Status>) returns (status: JobStatus)
    ensures status == Aggregate(set s | s in rows)
  {
    if |rows| == 0 {
      return JobPending;
    }
    var pending, active, success, failure := CountStatuses(rows);
    Decided(rows);
    if pending == |rows| {
      status := JobPending;
    } else if active > 0 || pending > 0 {
      status := JobRunning;
    } else if success == |rows| {
      status := JobCompleted;
    } else if failure == |rows| {
      status := JobFailed;
    } else if success > 0 && failure > 0 {
      status := JobPartialFailed;
    } else {
      status := JobRunning;
    }
  }

  /** When a job has which status. */
  lemma AggregateExactly(statuses: set<Status>)
    ensures Aggregate(statuses) == JobPending <==> statuses <= {Pending}
    ensures Aggregate(statuses) == JobCompleted <==> statuses == {Succeeded}
    ensures Aggregate(statuses) == JobFailed <==>
      statuses != {} && statuses <= {Failed, Unknown, Timeout, Cancelled, OfflineSkipped}
    ensures Aggregate(statuses) == JobPartialFailed <==>
      Succeeded in statuses && statuses != {Succeeded}
      && statuses <= {Succeeded, Failed, Unknown, Timeout, Cancelled, OfflineSkipped}
  {
    if statuses <= {Pending} || statuses == {Succeeded} {
    } else {
      var s := Other(statuses, if Pending in statuses then Pending else Succeeded);
    }
  }

  lemma Other(statuses: set<Status>, s: Status) returns (other: Status)
    requires statuses != {} && statuses != {s}
    ensures other in statuses && other != s
  {
    other :| other in statuses && other != s;
  }

  predicate Settled(s: JobStatus) {
    s.JobCompleted? || s.JobFailed? || s.JobPartialFailed?
  }

  /** A job is settled exactly when it has targets and all of them have an outcome. */
  lemma SettledExactly(statuses: set<Status>)
    ensures Settled(Aggregate(statuses)) <==> statuses != {} && forall s :: s in statuses ==> Terminal(s)
    ensures Aggregate(statuses).JobRunning? ==> exists s :: s in statuses && !Terminal(s)
  {
    if statuses != {} && forall s :: s in statuses ==> Terminal(s) {
      assert exists s :: s in statuses && s != Pending;
    }
  }

  function Range(statuses: map<NodeId, Status>): set<Status> {
    set n | n in statuses :: statuses[n]
  }

  /** A settled job never returns to pending or running while its targets only change legally. */
  lemma SettledStays(before: map<NodeId, Status>, after: map<NodeId, Status>)
    requires before.Keys == after.Keys
    requires forall n :: n in before ==> LegalChange(before[n], after[n])
    requires Settled(Aggregate(Range(before)))
    ensures Settled(Aggregate(Range(after)))
  {
    SettledExactly(Range(before));
    SettledExactly(Range(after));
    forall s | s in Range(after)
      ensures Terminal(s)
    {
      var n :| n in after && after[n] == s;
      assert before[n] in Range(before);
      if before[n] != s { ChangeClimbs(before[n], s); }
    }
    assert exists n :: n in before;
    var n :| n in before;
    assert after[n] in Range(after);
  }
}
