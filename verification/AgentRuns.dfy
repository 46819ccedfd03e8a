/**
 Runs of the agent: commands and acknowledgements in any order and number, the
 stages of the self-update executor, and crashes at any point, after which the
 state is reloaded from disk. Saves succeed, except that a quarantined state is
 never saved.
 */
module AgentRuns {
  import opened Basics
  import opened Protocol
  import opened AgentProtocol
  import opened AgentLaws

  /** How far the executor has come with the admitted command. */
  datatype Stage = Started | Fetching | Checking | Staged | Committed | Replaced | Relaunching

  datatype Executor = Idle | Reporting(cmd: Command) | Running(cmd: Command, stage: Stage)

  /** A sequence of a stream. */
  datatype Slot = Slot(streamId: StreamId, number: int)

  datatype Entry = Entry(slot: Slot, job: JobId)

  /** The agent and what can be observed of its past: the admitted sequenced commands that were not
      undone, the sequences whose executable was installed, the sequences it gave an outcome, whether it has
      been quarantined ever since the commit point was taken, and whether the update it admitted last has
      replaced the executable. */
  datatype Machine = Machine(
    mem: State, disk: State, exe: Hash, executor: Executor,
    admitted: seq<Entry>, installed: seq<int>, settled: set<Slot>, hidden: bool, renamed: bool)

  datatype Event =
    | ReceiveCommand(cmd: Command)
    | ReceiveAck(ack: Ack)
    | ReceiveCancel
    | AcceptReportFailed
    | AcceptReported
    | Download
    | Check
    | WriteStaged
    | Commit
    | Install
    | Relaunch
    | StopBeforeCommit(cancelled: bool)
    | FailAfterCommit
    | Restart(readable: bool)

  predicate PastCommit(stage: Stage) {
    stage.Committed? || stage.Replaced? || stage.Relaunching?
  }

  predicate Installed(stage: Stage) {
    stage.Replaced? || stage.Relaunching?
  }

  predicate At(m: Machine, stage: Stage) {
    m.executor.Running? && m.executor.stage == stage
  }

  /** Which events the executor's position permits. */
  predicate Enabled(m: Machine, e: Event) {
    match e
    case AcceptReportFailed | AcceptReported => m.executor.Reporting?
    case Download => At(m, Started)
    case Check => At(m, Fetching)
    case WriteStaged => At(m, Checking)
    case Commit => At(m, Staged)
    case Install => At(m, Committed)
    case Relaunch => At(m, Replaced)
    case StopBeforeCommit(_) => m.executor.Running? && !PastCommit(m.executor.stage)
    case FailAfterCommit => m.executor.Running? && PastCommit(m.executor.stage)
    case _ => true
  }

  /** Replace the state in memory and save it. */
  function Store(m: Machine, s: State): Machine {
    m.(mem := s, disk := Saved(s, m.disk), hidden := m.hidden && s.control == Quarantined)
  }

  function Settle(m: Machine, s: State): set<Slot> {
    m.settled + if s.task.Some? && s.task.value.number > 0 then {Slot(s.streamId, s.task.value.number)} else {}
  }

  function SequenceOf(number: int): seq<int> {
    if number > 0 then [number] else []
  }

  function Effect(m: Machine, e: Event): Machine
    requires Enabled(m, e)
  {
    match e
    case ReceiveCommand(cmd) =>
      if StreamMismatch(m.mem, cmd) then m.(mem := Begin(m.mem, cmd))
      else if Admit(m.mem, cmd) == Admitted then
        Store(m, Begin(m.mem, cmd)).(executor := Reporting(cmd), renamed := false,
          admitted := m.admitted + if cmd.number > 0 then [Entry(Slot(m.mem.streamId, cmd.number), cmd.jobId)] else [])
      else m
    case ReceiveAck(ack) => Store(m, ApplyAck(m.mem, ack))
    case ReceiveCancel =>
      if m.mem.task.Some? && !m.mem.task.value.commitPoint then Store(m, IntendCancel(m.mem)) else m
    case AcceptReportFailed =>
      Store(m, Abort(m.mem, m.executor.cmd)).(executor := Idle,
        admitted := if m.executor.cmd.number > 0 && |m.admitted| > 0 then m.admitted[..|m.admitted| - 1]
                    else m.admitted)
    case AcceptReported => m.(executor := Running(m.executor.cmd, Started))
    case Download => Store(m, Progress(m.mem, Downloading)).(executor := Running(m.executor.cmd, Fetching))
    case Check => Store(m, Progress(m.mem, Verifying)).(executor := Running(m.executor.cmd, Checking))
    case WriteStaged => m.(executor := Running(m.executor.cmd, Staged))
    case Commit =>
      Store(m, MarkCommit(m.mem)).(
        executor := Running(m.executor.cmd, Committed), hidden := m.mem.control == Quarantined)
    case Install =>
      m.(exe := m.executor.cmd.sha, executor := Running(m.executor.cmd, Replaced), renamed := true,
         installed := m.installed + SequenceOf(m.executor.cmd.number))
    case Relaunch => Store(m, Progress(m.mem, Restarting)).(executor := Running(m.executor.cmd, Relaunching))
    case StopBeforeCommit(cancelled) =>
      Store(m, Finish(m.mem, if cancelled then Cancelled else Failed)).(executor := Idle, settled := Settle(m, m.mem))
    case FailAfterCommit =>
      Store(m, Finish(m.mem, Unknown)).(executor := Idle, settled := Settle(m, m.mem))
    case Restart(readable) =>
      var s := Recover(m.disk, if readable then Some(m.exe) else None);
      m.(mem := s, disk := Saved(s, m.disk), executor := Idle, settled := Settle(m, m.disk), hidden := false)
  }

  /** An event the executor is not ready for does not happen. */
  function Step(m: Machine, e: Event): Machine {
    if Enabled(m, e) then Effect(m, e) else m
  }

  function Fresh(exe: Hash): Machine {
    Machine(EMPTY_STATE, EMPTY_STATE, exe, Idle, [], [], {}, false, false)
  }

  // ---------------------------------------------------------------- the invariant

  ghost predicate Increasing(s: seq<int>) {
    forall i, j :: 0 <= i < j < |s| ==> s[i] < s[j]
  }

  function Numbers(entries: seq<Entry>): seq<int> {
    seq(|entries|, i requires 0 <= i < |entries| => entries[i].slot.number)
  }

  /** A positive sequence the state can never admit again: at or below its watermark, or its own task. */
  predicate Spent(s: State, number: int) {
    number <= s.watermark || (s.task.Some? && s.task.value.number == number)
  }

  /** Executor and state belong together. */
  ghost predicate ExecutorOk(m: Machine) {
    match m.executor
    case Idle => m.mem.task.None?
    case Reporting(cmd) => TaskIs(m.mem, cmd) && !m.mem.task.value.commitPoint && !m.renamed
    case Running(cmd, stage) =>
      TaskIs(m.mem, cmd) && (m.mem.task.value.commitPoint <==> PastCommit(stage)) && (m.renamed <==> Installed(stage))
  }

  ghost predicate TaskIs(s: State, cmd: Command) {
    s.task.Some? && s.task.value.key == KeyOf(cmd) && s.task.value.number == cmd.number && s.task.value.sha == cmd.sha
  }

  /** The disk lags only while the agent is quarantined; a task in memory is on disk too, and its
      commit point is missing there exactly while it is hidden. */
  ghost predicate DiskOk(m: Machine) {
    && m.disk.control != Quarantined
    && (m.mem.control != Quarantined ==> m.disk == m.mem)
    && (m.mem.task.Some? ==>
          m.disk.task.Some? && m.disk.task.value.key == m.mem.task.value.key
          && m.disk.task.value.number == m.mem.task.value.number && m.disk.task.value.sha == m.mem.task.value.sha
          && (m.disk.task.value.commitPoint <==> m.mem.task.value.commitPoint && !m.hidden))
    && (m.mem.task.None? && m.disk.task.Some? ==>
          && !m.disk.task.value.commitPoint && !m.renamed
          && (m.disk.task.value.number > 0 ==> m.disk.task.value.number !in m.installed))
  }

  /** Every admitted or installed sequence is spent in memory and on disk, in increasing order. */
  ghost predicate PastOk(m: Machine) {
    && Increasing(Numbers(m.admitted)) && Increasing(m.installed)
    && (forall e :: e in m.admitted ==>
          0 < e.slot.number && Spent(m.mem, e.slot.number) && Spent(m.disk, e.slot.number))
    && (forall n :: n in m.installed ==>
          0 < n && Spent(m.mem, n) && Spent(m.disk, n))
    && (m.mem.task.Some? && m.mem.task.value.number > 0 ==>
          && |m.admitted| > 0 && m.admitted[|m.admitted| - 1].slot.number == m.mem.task.value.number
          && (m.mem.task.value.number in m.installed <==> m.executor.Running? && Installed(m.executor.stage))
          && forall n :: n in m.installed ==> n <= m.mem.task.value.number)
  }

  ghost predicate MachineOk(m: Machine) {
    AgentOk(m.mem) && AgentOk(m.disk) && ExecutorOk(m) && DiskOk(m) && PastOk(m)
  }

  /** A new state with the same task, apart from its stage and cancel intent, and no lower watermark. */
  predicate SameWork(s: State, s': State) {
    && s.watermark <= s'.watermark && s'.task.Some? == s.task.Some?
    && (s.task.Some? ==>
          var t, t' := s.task.value, s'.task.value;
          t'.key == t.key && t'.number == t.number && t'.sha == t.sha && t'.commitPoint == t.commitPoint)
  }

  lemma SameWorkDisk(m: Machine, s: State)
    requires DiskOk(m) && SameWork(m.mem, s)
    ensures DiskOk(Store(m, s))
  {
  }

  lemma SpentStays(s: State, s': State, number: int)
    requires SameWork(s, s') && Spent(s, number)
    ensures Spent(s', number)
  {
  }

  lemma SameWorkPast(m: Machine, s: State)
    requires PastOk(m) && SameWork(m.mem, s)
    ensures PastOk(Store(m, s))
  {
    forall number | Spent(m.mem, number)
      ensures Spent(s, number)
    {
      SpentStays(m.mem, s, number);
    }
  }

  /** Storing such a state keeps the invariant. */
  lemma SameWorkKeeps(m: Machine, s: State)
    requires MachineOk(m) && AgentOk(s) && SameWork(m.mem, s)
    ensures MachineOk(Store(m, s))
  {
    SameWorkDisk(m, s);
    SameWorkPast(m, s);
  }

  /** So does moving the executor between two stages on the same side of the commit point and of the rename. */
  lemma MovesOn(m: Machine, next: Stage)
    requires MachineOk(m) && m.executor.Running?
    requires PastCommit(next) <==> PastCommit(m.executor.stage)
    requires Installed(next) <==> Installed(m.executor.stage)
    ensures MachineOk(m.(executor := Running(m.executor.cmd, next)))
  {
  }

  lemma AdmissionPast(m: Machine, cmd: Command)
    requires MachineOk(m) && Admit(m.mem, cmd) == Admitted
    ensures PastOk(Step(m, ReceiveCommand(cmd)))
  {
    var m' := Step(m, ReceiveCommand(cmd));
    assert m.disk == m.mem && m.mem.task.None?;
    assert m'.disk == m'.mem && m'.mem == AdmittedState(m.mem, cmd);
    var before, after := Numbers(m.admitted), Numbers(m'.admitted);
    if cmd.number > 0 {
      assert after == before + [cmd.number];
      assert forall i :: 0 <= i < |m.admitted| ==> m.admitted[i] in m.admitted;
    } else {
      assert after == before;
    }
  }

  lemma AdmissionDisk(m: Machine, cmd: Command)
    requires MachineOk(m) && Admit(m.mem, cmd) == Admitted
    ensures var m' := Step(m, ReceiveCommand(cmd));
      DiskOk(m') && ExecutorOk(m') && m'.disk == m'.mem == Begin(m.mem, cmd)
  {
  }

  lemma CommandStep(m: Machine, cmd: Command)
    requires MachineOk(m)
    ensures MachineOk(Step(m, ReceiveCommand(cmd)))
  {
    BeginKeeps(m.mem, cmd);
    if StreamMismatch(m.mem, cmd) {
      SameWorkKeeps(m, Begin(m.mem, cmd));
    } else if Admit(m.mem, cmd) == Admitted {
      AdmissionPast(m, cmd);
      AdmissionDisk(m, cmd);
    }
  }

  lemma AckStep(m: Machine, ack: Ack)
    requires MachineOk(m)
    ensures MachineOk(Step(m, ReceiveAck(ack)))
  {
    AckKeeps(m.mem, ack);
    SameWorkKeeps(m, ApplyAck(m.mem, ack));
  }

  lemma AbortStep(m: Machine)
    requires MachineOk(m) && m.executor.Reporting?
    ensures MachineOk(Step(m, AcceptReportFailed))
  {
    AbortKeeps(m.mem, m.executor.cmd);
    var m' := Step(m, AcceptReportFailed);
    if m.executor.cmd.number > 0 {
      var n := |m.admitted| - 1;
      assert Numbers(m'.admitted) == Numbers(m.admitted)[..n];
      forall e | e in m'.admitted
        ensures e in m.admitted && Spent(m'.mem, e.slot.number) && Spent(m'.disk, e.slot.number)
      {
        var i :| 0 <= i < n && m.admitted[i] == e;
        assert Numbers(m.admitted)[i] < Numbers(m.admitted)[n];
      }
    }
  }

  lemma ProgressStep(m: Machine, status: Status, next: Stage)
    requires MachineOk(m) && m.executor.Running? && InProgress(status)
    requires PastCommit(next) <==> PastCommit(m.executor.stage)
    requires Installed(next) <==> Installed(m.executor.stage)
    ensures MachineOk(Store(m, Progress(m.mem, status)).(executor := Running(m.executor.cmd, next)))
  {
    ProgressKeeps(m.mem, status);
    SameWorkKeeps(m, Progress(m.mem, status));
    MovesOn(Store(m, Progress(m.mem, status)), next);
  }

  lemma CancelStep(m: Machine)
    requires MachineOk(m)
    ensures MachineOk(Step(m, ReceiveCancel))
  {
    if m.mem.task.Some? {
      CancelKeeps(m.mem);
      SameWorkKeeps(m, IntendCancel(m.mem));
    }
  }

  lemma ReportedStep(m: Machine)
    requires MachineOk(m)
    ensures MachineOk(Step(m, AcceptReported))
  {
  }

  lemma StagedStep(m: Machine)
    requires MachineOk(m)
    ensures MachineOk(Step(m, WriteStaged))
  {
  }

  lemma CommitDisk(m: Machine)
    requires DiskOk(m) && ExecutorOk(m) && At(m, Staged)
    ensures DiskOk(Step(m, Commit))
  {
  }

  lemma CommitPast(m: Machine)
    requires PastOk(m) && At(m, Staged)
    ensures PastOk(Step(m, Commit))
  {
    var m' := Step(m, Commit);
    assert forall n :: Spent(m.mem, n) ==> Spent(m'.mem, n);
  }

  lemma CommitStep(m: Machine)
    requires MachineOk(m)
    ensures MachineOk(Step(m, Commit))
  {
    if At(m, Staged) {
      CommitDisk(m);
      CommitPast(m);
    }
  }

  lemma InstallStep(m: Machine)
    requires MachineOk(m) && At(m, Committed)
    ensures MachineOk(Step(m, Install))
  {
    var m' := Step(m, Install);
    if m.executor.cmd.number > 0 {
      assert m'.installed == m.installed + [m.executor.cmd.number];
      assert forall i :: 0 <= i < |m.installed| ==> m.installed[i] in m.installed;
    } else {
      assert m'.installed == m.installed;
    }
  }

  lemma EndStep(m: Machine, status: Status, settled: set<Slot>)
    requires MachineOk(m) && m.executor.Running? && Outcome(status)
    requires PastCommit(m.executor.stage) ==> status == Unknown
    ensures MachineOk(Store(m, Finish(m.mem, status)).(executor := Idle, settled := settled))
  {
    FinishKeeps(m.mem, status);
    var s := Finish(m.mem, status);
    assert forall n :: Spent(m.mem, n) ==> Spent(s, n);
    assert status == Unknown ==> s.control == Blocked;
  }

  lemma RestartStep(m: Machine, readable: bool)
    requires MachineOk(m)
    ensures MachineOk(Step(m, Restart(readable)))
  {
    RecoverKeeps(m.disk, if readable then Some(m.exe) else None);
  }

  lemma StepKeeps(m: Machine, e: Event)
    requires MachineOk(m)
    ensures MachineOk(Step(m, e))
  {
    if Enabled(m, e) {
      match e {
        case ReceiveCommand(cmd) => CommandStep(m, cmd);
        case ReceiveAck(ack) => AckStep(m, ack);
        case ReceiveCancel => CancelStep(m);
        case AcceptReportFailed => AbortStep(m);
        case AcceptReported => ReportedStep(m);
        case Download => ProgressStep(m, Downloading, Fetching);
        case Check => ProgressStep(m, Verifying, Checking);
        case WriteStaged => StagedStep(m);
        case Commit => CommitStep(m);
        case Install => InstallStep(m);
        case Relaunch => ProgressStep(m, Restarting, Relaunching);
        case StopBeforeCommit(cancelled) => EndStep(m, if cancelled then Cancelled else Failed, Settle(m, m.mem));
        case FailAfterCommit => EndStep(m, Unknown, Settle(m, m.mem));
        case Restart(readable) => RestartStep(m, readable);
      }
    }
  }

  // ---------------------------------------------------------------- runs

  function Run(m: Machine, es: seq<Event>): Machine
    decreases |es|
  {
    if es == [] then m else Step(Run(m, es[..|es| - 1]), es[|es| - 1])
  }

  lemma {:induction false} RunKeeps(m: Machine, es: seq<Event>)
    requires MachineOk(m)
    ensures MachineOk(Run(m, es))
    decreases |es|
  {
    if es != [] {
      RunKeeps(m, es[..|es| - 1]);
      StepKeeps(Run(m, es[..|es| - 1]), es[|es| - 1]);
    }
  }

  /** Over every run of a new agent, with commands and acknowledgements repeated, reordered and made up,
      and crashes anywhere: sequences are admitted (unless the admission was undone) and executables
      installed in strictly increasing order, so each at most once, however few records are kept. */
  lemma AtMostOnce(exe: Hash, es: seq<Event>)
    ensures Increasing(Numbers(Run(Fresh(exe), es).admitted))
    ensures Increasing(Run(Fresh(exe), es).installed)
  {
    RunKeeps(Fresh(exe), es);
  }

  // ---------------------------------------------------------------- crash soundness

  function Digest(m: Machine, readable: bool): Option<Hash> {
    if readable then Some(m.exe) else None
  }

  /** The outcome a restart would report for the task that is running. */
  function RestartVerdict(m: Machine, readable: bool): Status
    requires m.disk.task.Some?
  {
    Verdict(m.disk.task.value, Digest(m, readable))
  }

  predicate Committing(m: Machine) {
    m.executor.Running? && PastCommit(m.executor.stage)
  }

  /** A crash at any point of a run, with an update still on the disk: running, about to be reported, or given up by
      a quarantined agent that could not save its outcome. The update on the disk is the executor's, if there is one.
      Success is reported only for an executable with the target's hash. Failed or cancelled is reported exactly when
      the executor is not past the commit point, or the agent has been quarantined ever since the commit point was
      taken, since that keeps the commit point off the disk. So, unless it was hidden in that way, an update that is
      reported failed or cancelled has not replaced the executable. */
  lemma CrashSound(exe: Hash, es: seq<Event>, readable: bool)
    requires Run(Fresh(exe), es).disk.task.Some?
    ensures var m := Run(Fresh(exe), es);
      var v := RestartVerdict(m, readable);
      && (!m.executor.Idle? ==> TaskIs(m.disk, m.executor.cmd))
      && (v == Succeeded ==> readable && m.exe == m.disk.task.value.sha)
      && (v == Failed || v == Cancelled <==> !Committing(m) || m.hidden)
      && (m.renamed ==> Committing(m))
      && ((v == Failed || v == Cancelled) && m.renamed ==> m.hidden && m.mem.control == Quarantined)
  {
    RunKeeps(Fresh(exe), es);
    HiddenOnlyQuarantined(Fresh(exe), es);
  }

  /** While the executor is at work, the update is on the disk. */
  lemma WorkIsOnDisk(exe: Hash, es: seq<Event>)
    requires !Run(Fresh(exe), es).executor.Idle?
    ensures Run(Fresh(exe), es).disk.task.Some? && TaskIs(Run(Fresh(exe), es).disk, Run(Fresh(exe), es).executor.cmd)
  {
    RunKeeps(Fresh(exe), es);
  }

  lemma {:induction false} HiddenOnlyQuarantined(m: Machine, es: seq<Event>)
    requires !m.hidden
    ensures Run(m, es).hidden ==> Run(m, es).mem.control == Quarantined
    decreases |es|
  {
    if es != [] {
      HiddenOnlyQuarantined(m, es[..|es| - 1]);
    }
  }

  lemma RestartSettlesAt(m: Machine, readable: bool)
    requires MachineOk(m) && m.disk.task.Some?
    ensures var t := m.disk.task.value;
      var s := Recover(m.disk, Digest(m, readable));
      && s.task.None? && s.control != Quarantined && t.number <= s.watermark
      && Concludes(s.records, t, Digest(m, readable))
      && (RestartVerdict(m, readable) == Unknown ==> s.control == Blocked)
  {
    RecoverConcludes(m.disk, Digest(m, readable));
  }

  lemma SecondRestart(m: Machine, again: bool)
    requires m.disk == m.mem && m.mem.task.None? && m.mem.control != Quarantined
    requires m.executor.Idle? && !m.hidden
    ensures Step(m, Restart(again)) == m
  {
  }

  lemma RestartTakes(m: Machine, readable: bool)
    requires MachineOk(m) && m.disk.task.Some?
    ensures var s, m' := Recover(m.disk, Digest(m, readable)), Step(m, Restart(readable));
      m'.mem == s && m'.disk == s && m'.executor.Idle? && !m'.hidden
  {
    RestartSettlesAt(m, readable);
  }

  /** What a restart leaves behind of a task found on disk, at any point of a run: the task is gone, its
      sequence spent, its outcome recorded; an unknown outcome blocks the agent; and a second restart
      changes nothing. */
  lemma RestartSettles(exe: Hash, es: seq<Event>, readable: bool, again: bool)
    requires Run(Fresh(exe), es).disk.task.Some?
    ensures var m := Run(Fresh(exe), es);
      var t := m.disk.task.value;
      var m' := Step(m, Restart(readable));
      && m'.mem.task.None? && m'.disk == m'.mem && t.number <= m'.mem.watermark
      && Concludes(m'.mem.records, t, Digest(m, readable))
      && (RestartVerdict(m, readable) == Unknown ==> m'.mem.control == Blocked)
      && Step(m', Restart(again)) == m'
  {
    RunKeeps(Fresh(exe), es);
    SettlesOnce(Run(Fresh(exe), es), readable, again);
  }

  lemma SettlesOnce(m: Machine, readable: bool, again: bool)
    requires MachineOk(m) && m.disk.task.Some?
    ensures var t, m' := m.disk.task.value, Step(m, Restart(readable));
      && m'.mem.task.None? && m'.disk == m'.mem && t.number <= m'.mem.watermark
      && Concludes(m'.mem.records, t, Digest(m, readable))
      && (RestartVerdict(m, readable) == Unknown ==> m'.mem.control == Blocked)
      && Step(m', Restart(again)) == m'
  {
    RestartSettlesAt(m, readable);
    RestartTakes(m, readable);
    SecondRestart(Step(m, Restart(readable)), again);
  }

  /** The events that end a task. */
  predicate EndsTask(e: Event) {
    e.StopBeforeCommit? || e.FailAfterCommit? || e.Restart?
  }

  /** The first state has the task of this sequence, the second has none and an outcome of it on record. */
  ghost predicate GetsOutcome(a: State, s: State, slot: Slot) {
    && a.task.Some? && 0 < a.task.value.number && slot == Slot(a.streamId, a.task.value.number)
    && s.task.None? && exists r :: r in s.records && r.key == a.task.value.key && Terminal(r.status)
  }

  lemma TaskStays(m: Machine, e: Event)
    requires MachineOk(m) && m.mem.task.Some? && !EndsTask(e) && !e.AcceptReportFailed?
    ensures Step(m, e).mem.task.Some?
  {
    if e.ReceiveCommand? { AdmittedExactly(m.mem, e.cmd); }
  }

  /** The task of the first state is gone in the second, which has an outcome of it on record. */
  ghost predicate Ended(a: State, s: State) {
    a.task.Some? ==>
      s.task.None? && exists r :: r in s.records && r.key == a.task.value.key && Terminal(r.status)
  }

  lemma FinishSettles(m: Machine, e: Event)
    requires MachineOk(m) && EndsTask(e) && !e.Restart? && Enabled(m, e)
    ensures Step(m, e).settled == Settle(m, m.mem) && Ended(m.mem, Step(m, e).mem)
  {
    FinishMeans(m.mem, if e.FailAfterCommit? then Unknown else if e.cancelled then Cancelled else Failed);
  }

  lemma RestartEnds(m: Machine, readable: bool)
    requires MachineOk(m)
    ensures Step(m, Restart(readable)).settled == Settle(m, m.disk)
    ensures Ended(m.disk, Step(m, Restart(readable)).mem)
  {
    if m.disk.task.Some? { RestartSettlesAt(m, readable); }
  }

  lemma OthersSettleNothing(m: Machine, e: Event)
    requires !EndsTask(e) || !Enabled(m, e)
    ensures Step(m, e).settled == m.settled
    ensures e.AcceptReportFailed? && Enabled(m, e) && ExecutorOk(m) ==>
              forall r :: r in Step(m, e).mem.records ==> r.key != m.mem.task.value.key
  {
  }

  /** The sequences said to have an outcome are those whose task ended with one on record. */
  lemma SettledExactly(m: Machine, e: Event, slot: Slot)
    requires MachineOk(m)
    ensures slot in Step(m, e).settled <==>
              slot in m.settled || GetsOutcome(if e.Restart? then m.disk else m.mem, Step(m, e).mem, slot)
  {
    if e.Restart? {
      RestartEnds(m, e.readable);
    } else if EndsTask(e) && Enabled(m, e) {
      FinishSettles(m, e);
    } else {
      OthersSettleNothing(m, e);
      if m.mem.task.Some? && !EndsTask(e) && !e.AcceptReportFailed? { TaskStays(m, e); }
    }
  }

  /** A cancel that is on the disk with its task, and in memory as long as the task is there. */
  predicate Intended(m: Machine) {
    m.disk.task.Some? && m.disk.task.value.cancelIntent
    && (m.mem.task.Some? ==> m.mem.task.value.cancelIntent)
  }

  lemma StoreIntends(m: Machine, s: State)
    requires Intended(m) && (s.task.Some? ==> s.task.value.cancelIntent) && Store(m, s).disk.task.Some?
    ensures Intended(Store(m, s))
  {
  }

  lemma AdmissionKeepsIntent(m: Machine, cmd: Command)
    requires MachineOk(m) && Intended(m) && Step(m, ReceiveCommand(cmd)).disk.task.Some?
    ensures Intended(Step(m, ReceiveCommand(cmd)))
  {
    AdmittedExactly(m.mem, cmd);
  }

  lemma StageKeepsIntent(m: Machine, stage: Status)
    requires Intended(m) && Store(m, Progress(m.mem, stage)).disk.task.Some?
    ensures Intended(Store(m, Progress(m.mem, stage)))
  {
    StoreIntends(m, Progress(m.mem, stage));
  }

  lemma EndKeepsIntent(m: Machine, e: Event)
    requires MachineOk(m) && Intended(m) && EndsTask(e) && Step(m, e).disk.task.Some?
    ensures Intended(Step(m, e))
  {
  }

  lemma IntentStays(m: Machine, e: Event)
    requires MachineOk(m) && Intended(m) && Step(m, e).disk.task.Some?
    ensures Intended(Step(m, e))
  {
    if EndsTask(e) {
      EndKeepsIntent(m, e);
    } else if e.ReceiveCommand? {
      AdmissionKeepsIntent(m, e.cmd);
    } else if Enabled(m, e) {
      match e {
        case ReceiveAck(ack) => StoreIntends(m, ApplyAck(m.mem, ack));
        case AcceptReportFailed => StoreIntends(m, Abort(m.mem, m.executor.cmd));
        case Download => StageKeepsIntent(m, Downloading);
        case Check => StageKeepsIntent(m, Verifying);
        case Relaunch => StageKeepsIntent(m, Restarting);
        case Commit => StoreIntends(m, MarkCommit(m.mem));
        case _ =>
      }
    }
  }

  lemma {:induction false} IntentRuns(m: Machine, es: seq<Event>)
    requires MachineOk(m) && Intended(m)
    requires forall i :: 0 <= i <= |es| ==> Run(m, es[..i]).disk.task.Some?
    ensures Intended(Run(m, es)) && MachineOk(Run(m, es))
    decreases |es|
  {
    if es != [] {
      var n := |es| - 1;
      assert forall i :: 0 <= i <= n ==> es[..n][..i] == es[..i];
      assert es[..|es|] == es;
      IntentRuns(m, es[..n]);
      IntentStays(Run(m, es[..n]), es[n]);
      RunKeeps(m, es);
    }
  }

  lemma CancelIntends(m: Machine)
    requires MachineOk(m) && m.mem.task.Some? && !m.mem.task.value.commitPoint && m.mem.control != Quarantined
    ensures Intended(Step(m, ReceiveCancel))
  {
  }

  /** A cancel is taken: there is an update, before its commit point, and the state is saved. */
  predicate TakesCancel(m: Machine) {
    m.mem.task.Some? && !m.mem.task.value.commitPoint && m.mem.control != Quarantined
  }

  /** The disk holds an update all the time, without a commit point at the end. */
  ghost predicate StaysOnDisk(m: Machine, more: seq<Event>) {
    && (forall i :: 0 <= i <= |more| ==> Run(m, more[..i]).disk.task.Some?)
    && Run(m, more).disk.task.Some? && !Run(m, more).disk.task.value.commitPoint
  }

  lemma CancelSurvivesAt(m: Machine, more: seq<Event>, readable: bool)
    requires MachineOk(m) && TakesCancel(m) && StaysOnDisk(Step(m, ReceiveCancel), more)
    ensures RestartCancels(Run(Step(m, ReceiveCancel), more), readable)
  {
    var m' := Step(m, ReceiveCancel);
    StepKeeps(m, ReceiveCancel);
    CancelIntends(m);
    IntentRuns(m', more);
    IntendedCancels(Run(m', more), readable);
  }

  /** A cancel taken before the commit point by an agent that is not quarantined survives: while the update stays on
      the disk without a commit point, whatever else happens, a restart records it as cancelled. */
  lemma CancelSurvives(exe: Hash, es: seq<Event>, more: seq<Event>, readable: bool)
    requires TakesCancel(Run(Fresh(exe), es))
    requires StaysOnDisk(Step(Run(Fresh(exe), es), ReceiveCancel), more)
    ensures RestartCancels(Run(Step(Run(Fresh(exe), es), ReceiveCancel), more), readable)
  {
    RunKeeps(Fresh(exe), es);
    CancelSurvivesAt(Run(Fresh(exe), es), more, readable);
  }

  /** A restart ends the task found on the disk as cancelled. */
  ghost predicate RestartCancels(m: Machine, readable: bool)
    requires m.disk.task.Some?
  {
    var t, m' := m.disk.task.value, Step(m, Restart(readable));
    && m'.mem.task.None? && m'.disk == m'.mem
    && (exists r :: r in m'.mem.records && r.key == t.key && r.jobId == t.jobId && r.status == Cancelled)
    && (forall r :: r in m'.mem.records && r.key == t.key ==> r.status == Cancelled)
  }

  lemma IntendedCancels(m: Machine, readable: bool)
    requires MachineOk(m) && Intended(m) && !m.disk.task.value.commitPoint
    ensures RestartCancels(m, readable)
  {
    RestartSettlesAt(m, readable);
    RestartTakes(m, readable);
  }

  /** The exception is real: quarantined while downloading, the agent installs the new executable, and a
      crash then makes it report the update as failed. */
  lemma QuarantineHidesInstall(exe: Hash, sha: Hash) returns (es: seq<Event>)
    ensures var m := Run(Fresh(exe), es);
      && m.executor.Running? && Installed(m.executor.stage) && m.exe == sha
      && m.disk.task.Some? && RestartVerdict(m, true) == Failed
  {
    var m5 := QuarantinedWhileChecking(exe, sha);
    es := [ReceiveCommand(AutoUpdate(sha)), AcceptReported, Download, ReceiveAck(Ack("stream", 1, 0, Quarantined)),
           Check];
    var more := es + [WriteStaged, Commit, Install];
    assert more[..5] == es;
    Unroll(Fresh(exe), more, 5);
    Unroll(Fresh(exe), more, 6);
    Unroll(Fresh(exe), more, 7);
    assert more[..8] == more;
    es := more;
  }

  function AutoUpdate(sha: Hash): Command {
    Command("auto-update", "v2", sha, "", 0)
  }

  /** The agent after it has admitted the automatic update. */
  ghost predicate Admits(m: Machine, cmd: Command) {
    && m.disk == m.mem && m.mem.control == Open && TaskIs(m.mem, cmd)
    && !m.mem.task.value.commitPoint && !m.mem.task.value.cancelIntent && cmd.number == 0
  }

  lemma AdmitsUpdate(exe: Hash, sha: Hash)
    ensures var m := Step(Fresh(exe), ReceiveCommand(AutoUpdate(sha)));
      Admits(m, AutoUpdate(sha)) && m.executor == Reporting(AutoUpdate(sha))
  {
  }

  lemma Downloads(m: Machine, cmd: Command)
    requires Admits(m, cmd) && m.executor == Reporting(cmd)
    ensures var m' := Step(Step(m, AcceptReported), Download);
      Admits(m', cmd) && m'.executor == Running(cmd, Fetching)
  {
  }

  lemma QuarantinedAndChecks(m: Machine, cmd: Command)
    requires Admits(m, cmd) && m.executor == Running(cmd, Fetching)
    ensures var m' := Step(Step(m, ReceiveAck(Ack("stream", 1, 0, Quarantined))), Check);
      && m'.executor == Running(cmd, Checking) && m'.mem.control == Quarantined
      && m'.mem.task.Some? && m'.disk.task.Some?
      && !m'.disk.task.value.commitPoint && !m'.disk.task.value.cancelIntent
  {
  }

  lemma AfterThree(exe: Hash, sha: Hash, es: seq<Event>)
    requires |es| >= 3 && es[0] == ReceiveCommand(AutoUpdate(sha)) && es[1] == AcceptReported && es[2] == Download
    ensures Admits(Run(Fresh(exe), es[..3]), AutoUpdate(sha))
    ensures Run(Fresh(exe), es[..3]).executor == Running(AutoUpdate(sha), Fetching)
  {
    AdmitsUpdate(exe, sha);
    Downloads(Step(Fresh(exe), es[0]), AutoUpdate(sha));
    assert Run(Fresh(exe), es[..0]) == Fresh(exe);
    Unroll(Fresh(exe), es, 0);
    Unroll(Fresh(exe), es, 1);
    Unroll(Fresh(exe), es, 2);
  }

  lemma QuarantinedWhileChecking(exe: Hash, sha: Hash) returns (m: Machine)
    ensures m == Run(Fresh(exe),
      [ReceiveCommand(AutoUpdate(sha)), AcceptReported, Download, ReceiveAck(Ack("stream", 1, 0, Quarantined)), Check])
    ensures m.executor == Running(AutoUpdate(sha), Checking) && m.mem.control == Quarantined
    ensures m.mem.task.Some? && m.disk.task.Some?
    ensures !m.disk.task.value.commitPoint && !m.disk.task.value.cancelIntent
  {
    var es := [ReceiveCommand(AutoUpdate(sha)), AcceptReported, Download,
               ReceiveAck(Ack("stream", 1, 0, Quarantined)), Check];
    AfterThree(exe, sha, es);
    QuarantinedAndChecks(Run(Fresh(exe), es[..3]), AutoUpdate(sha));
    Unroll(Fresh(exe), es, 3);
    Unroll(Fresh(exe), es, 4);
    assert es[..5] == es;
    m := Run(Fresh(exe), es);
  }

  lemma Unroll(m: Machine, es: seq<Event>, n: nat)
    requires n < |es|
    ensures Run(m, es[..n + 1]) == Step(Run(m, es[..n]), es[n])
  {
    assert es[..n + 1][..n] == es[..n];
  }
}
