/**
 Runs of server, agent and network that end where a reader would not expect it, after a restore of the server to a
 moment between the first handshake and the first job.
 */
module JointWitnesses {
  import opened Basics
  import opened Protocol
  import opened NodeTables
  import opened JointRuns
  import H = HandshakeExchange
  import P = AgentProtocol
  import A = AgentRuns

  lemma RunSnoc(s: System, steps: seq<Step>, step: Step)
    ensures Run(s, steps + [step]) == Next(Run(s, steps), step)
  {
    assert (steps + [step])[..|steps|] == steps;
  }

  /** The rows of a node that has a stream and no target yet. */
  const STREAMED := EMPTY_ROWS.(stream := Some(Stream("s", 1, 0, Open)))

  // ---------------------------------------------------------------- a first job

  lemma FirstReconciliation()
    ensures Reconcile(EMPTY_ROWS, "s", "", 0) == STREAMED
  {
    assert ClosedSeqs(EMPTY_ROWS) == {} && ClosedSeqs(EnsureStream(EMPTY_ROWS, "s")) == {};
  }

  /** The server has made a stream for the agent. */
  ghost predicate Met(s: System, exe: Hash) {
    s.rows == STREAMED && STREAMED in s.past && s.issued == map[] && s.agent == A.Fresh(exe)
  }

  lemma Meets(exe: Hash)
    ensures var s := Next(Start(EMPTY_ROWS, exe), SendHandshake);
      Met(Next(s, TakeHandshake(P.HandshakeOf(P.EMPTY_STATE), "s")), exe)
  {
    FirstReconciliation();
  }

  lemma MeetsRun(exe: Hash) returns (steps: seq<Step>)
    ensures Met(Run(Start(EMPTY_ROWS, exe), steps), exe)
  {
    steps := [SendHandshake, TakeHandshake(P.HandshakeOf(P.EMPTY_STATE), "s")];
    assert steps[..1] == [] + [SendHandshake] && steps == steps[..1] + [steps[1]];
    RunSnoc(Start(EMPTY_ROWS, exe), [], SendHandshake);
    RunSnoc(Start(EMPTY_ROWS, exe), steps[..1], steps[1]);
    Meets(exe);
  }

  /** Agent and server know each other, and nothing was ordered yet. */
  ghost predicate Bound(s: System) {
    && s.rows == STREAMED && STREAMED in s.past && s.issued == map[]
    && s.agent.mem == P.EMPTY_STATE.(streamId := "s")
  }

  lemma Answers(s: System, exe: Hash)
    requires Met(s, exe)
    ensures Bound(Next(Next(s, SendAck), AgentEvent(A.ReceiveAck(Ack("s", 1, 0, Open)))))
  {
  }

  lemma BindsRun(exe: Hash) returns (steps: seq<Step>)
    ensures Bound(Run(Start(EMPTY_ROWS, exe), steps))
  {
    var s := Start(EMPTY_ROWS, exe);
    var met := MeetsRun(exe);
    var ack := AgentEvent(A.ReceiveAck(Ack("s", 1, 0, Open)));
    Answers(Run(s, met), exe);
    RunSnoc(s, met, SendAck);
    RunSnoc(s, met + [SendAck], ack);
    steps := met + [SendAck] + [ack];
  }

  function FirstCommand(sha: Hash): Command {
    Command("a", "v", sha, "s", 1)
  }

  /** The agent works on the first job, of which it holds the only record. */
  ghost predicate Working(m: A.Machine, executor: A.Executor) {
    && m.executor == executor
    && m.mem.control == Open && m.mem.streamId == "s" && m.mem.watermark == 0
    && m.mem.task.Some? && m.mem.task.value.jobId == "a" && m.mem.task.value.number == 1
    && |m.mem.records| == 1 && m.mem.records[0].key == m.mem.task.value.key
  }

  ghost predicate TakenUp(s: System, executor: A.Executor) {
    STREAMED in s.past && s.issued == map["a" := 1] && Working(s.agent, executor)
  }

  lemma TakesUp(s: System, sha: Hash)
    requires Bound(s)
    ensures var ordered := Next(Next(s, Create("a", sha, "t", 0)), SendCommand("a", "v"));
      TakenUp(Next(ordered, AgentEvent(A.ReceiveCommand(FirstCommand(sha)))), A.Reporting(FirstCommand(sha)))
  {
  }

  lemma TakesUpRun(exe: Hash, sha: Hash) returns (steps: seq<Step>)
    ensures TakenUp(Run(Start(EMPTY_ROWS, exe), steps), A.Reporting(FirstCommand(sha)))
  {
    var s := Start(EMPTY_ROWS, exe);
    var bound := BindsRun(exe);
    var create, send := Create("a", sha, "t", 0), SendCommand("a", "v");
    var receive := AgentEvent(A.ReceiveCommand(FirstCommand(sha)));
    TakesUp(Run(s, bound), sha);
    RunSnoc(s, bound, create);
    RunSnoc(s, bound + [create], send);
    RunSnoc(s, bound + [create] + [send], receive);
    steps := bound + [create] + [send] + [receive];
  }

  // ---------------------------------------------------------------- a sequence given twice

  lemma OrdersAgain(s: System, sha: Hash, executor: A.Executor)
    requires TakenUp(s, executor)
    ensures var s' := Next(Next(s, Restore(STREAMED)), Create("b", sha, "t", 0));
      s'.issued == map["a" := 1, "b" := 1] && s'.agent == s.agent
  {
  }

  /** The server gives the first job's sequence to the next job while the agent still works on the first. */
  lemma SequenceGivenTwice(exe: Hash, sha: Hash) returns (steps: seq<Step>)
    ensures var s := Run(Start(EMPTY_ROWS, exe), steps);
      && s.issued == map["a" := 1, "b" := 1] && s.agent.mem.control == Open && s.agent.mem.task.Some?
      && s.agent.mem.task.value.jobId == "a" && s.agent.mem.task.value.number == 1
  {
    var s := Start(EMPTY_ROWS, exe);
    var taken := TakesUpRun(exe, sha);
    var create := Create("b", sha, "t", 0);
    OrdersAgain(Run(s, taken), sha, A.Reporting(FirstCommand(sha)));
    RunSnoc(s, taken, Restore(STREAMED));
    RunSnoc(s, taken + [Restore(STREAMED)], create);
    steps := taken + [Restore(STREAMED)] + [create];
  }

  // ---------------------------------------------------------------- an unknown outcome forgotten

  /** The stages up to the commit point, and where each of them leads. */
  predicate LeadsTo(cmd: Command, before: A.Executor, e: A.Event, after: A.Executor) {
    (before == A.Reporting(cmd) && e == A.AcceptReported && after == A.Running(cmd, A.Started))
    || (before == A.Running(cmd, A.Started) && e == A.Download && after == A.Running(cmd, A.Fetching))
    || (before == A.Running(cmd, A.Fetching) && e == A.Check && after == A.Running(cmd, A.Checking))
    || (before == A.Running(cmd, A.Checking) && e == A.WriteStaged && after == A.Running(cmd, A.Staged))
    || (before == A.Running(cmd, A.Staged) && e == A.Commit && after == A.Running(cmd, A.Committed))
  }

  lemma Advances(exe: Hash, sha: Hash, taken: seq<Step>, before: A.Executor, e: A.Event, after: A.Executor)
    requires TakenUp(Run(Start(EMPTY_ROWS, exe), taken), before) && LeadsTo(FirstCommand(sha), before, e, after)
    ensures TakenUp(Run(Start(EMPTY_ROWS, exe), taken + [AgentEvent(e)]), after)
  {
    RunSnoc(Start(EMPTY_ROWS, exe), taken, AgentEvent(e));
  }

  lemma CommitsRun(exe: Hash, sha: Hash) returns (steps: seq<Step>)
    ensures TakenUp(Run(Start(EMPTY_ROWS, exe), steps), A.Running(FirstCommand(sha), A.Committed))
  {
    var cmd := FirstCommand(sha);
    steps := TakesUpRun(exe, sha);
    Advances(exe, sha, steps, A.Reporting(cmd), A.AcceptReported, A.Running(cmd, A.Started));
    steps := steps + [AgentEvent(A.AcceptReported)];
    Advances(exe, sha, steps, A.Running(cmd, A.Started), A.Download, A.Running(cmd, A.Fetching));
    steps := steps + [AgentEvent(A.Download)];
    Advances(exe, sha, steps, A.Running(cmd, A.Fetching), A.Check, A.Running(cmd, A.Checking));
    steps := steps + [AgentEvent(A.Check)];
    Advances(exe, sha, steps, A.Running(cmd, A.Checking), A.WriteStaged, A.Running(cmd, A.Staged));
    steps := steps + [AgentEvent(A.WriteStaged)];
    Advances(exe, sha, steps, A.Running(cmd, A.Staged), A.Commit, A.Running(cmd, A.Committed));
    steps := steps + [AgentEvent(A.Commit)];
  }

  /** The agent holds one record, of an unknown outcome of the first job. */
  ghost predicate Undecided(a: P.State) {
    && a.streamId == "s" && a.watermark == 1 && a.task.None?
    && |a.records| == 1 && a.records[0].jobId == "a" && a.records[0].number == 1 && a.records[0].status == Unknown
  }

  lemma Fails(s: System, sha: Hash)
    requires TakenUp(s, A.Running(FirstCommand(sha), A.Committed))
    ensures var s' := Next(s, AgentEvent(A.FailAfterCommit));
      STREAMED in s'.past && Undecided(s'.agent.mem) && s'.agent.mem.control == Blocked
  {
  }

  lemma FailsRun(exe: Hash, sha: Hash) returns (steps: seq<Step>)
    ensures var s := Run(Start(EMPTY_ROWS, exe), steps);
      s.rows == STREAMED && Undecided(s.agent.mem) && s.agent.mem.control == Blocked
  {
    var s := Start(EMPTY_ROWS, exe);
    var committed := CommitsRun(exe, sha);
    Fails(Run(s, committed), sha);
    RunSnoc(s, committed, AgentEvent(A.FailAfterCommit));
    RunSnoc(s, committed + [AgentEvent(A.FailAfterCommit)], Restore(STREAMED));
    steps := committed + [AgentEvent(A.FailAfterCommit)] + [Restore(STREAMED)];
  }

  /** The restored rows after meeting the agent's watermark. */
  const RETIRED := EMPTY_ROWS.(stream := Some(Stream("s", 2, 1, Open)))

  lemma SecondReconciliation()
    ensures Reconcile(STREAMED, "t", "s", 1) == RETIRED
  {
    assert ClosedSeqs(EnsureStream(STREAMED, "t")) == {};
  }

  lemma Exchange(s: System)
    requires s.rows == STREAMED && Undecided(s.agent.mem)
    ensures var p := P.HandshakeOf(s.agent.mem);
      var s' := Next(Next(Next(s, SendHandshake), TakeHandshake(p, "t")), TakeRecord(p, 0, 0));
      s'.rows == RETIRED && s'.agent == s.agent
  {
    SecondReconciliation();
  }

  lemma Adopts(s: System)
    requires s.rows == RETIRED && Undecided(s.agent.mem) && s.agent.mem.control == Blocked
    ensures var s' := Next(Next(s, SendAck), AgentEvent(A.ReceiveAck(Ack("s", 2, 1, Open))));
      s'.rows == RETIRED && Undecided(s'.agent.mem) && s'.agent.mem.control == Open
  {
  }

  /** An update fails after its commit point and blocks the agent. The server, restored to before the job, answers
      the whole handshake with an open stream: the agent is open again, still holds the unknown outcome, and the
      server has nothing to dispose of. */
  lemma UnknownForgotten(exe: Hash, sha: Hash) returns (steps: seq<Step>)
    ensures var s := Run(Start(EMPTY_ROWS, exe), steps);
      && s.agent.mem.control == Open && s.rows.stream.Some? && s.rows.stream.value.control == Open
      && Undecided(s.agent.mem) && s.rows.targets == map[]
  {
    var s := Start(EMPTY_ROWS, exe);
    var failed := FailsRun(exe, sha);
    var p := P.HandshakeOf(Run(s, failed).agent.mem);
    Exchange(Run(s, failed));
    RunSnoc(s, failed, SendHandshake);
    RunSnoc(s, failed + [SendHandshake], TakeHandshake(p, "t"));
    RunSnoc(s, failed + [SendHandshake] + [TakeHandshake(p, "t")], TakeRecord(p, 0, 0));
    var taken := failed + [SendHandshake] + [TakeHandshake(p, "t")] + [TakeRecord(p, 0, 0)];
    steps := AdoptsRun(s, taken);
  }

  lemma AdoptsRun(s: System, taken: seq<Step>) returns (steps: seq<Step>)
    requires var reached := Run(s, taken);
      reached.rows == RETIRED && Undecided(reached.agent.mem) && reached.agent.mem.control == Blocked
    ensures var s' := Run(s, steps);
      s'.rows == RETIRED && Undecided(s'.agent.mem) && s'.agent.mem.control == Open
  {
    var ack := AgentEvent(A.ReceiveAck(Ack("s", 2, 1, Open)));
    Adopts(Run(s, taken));
    RunSnoc(s, taken, SendAck);
    RunSnoc(s, taken + [SendAck], ack);
    steps := taken + [SendAck] + [ack];
  }
}
