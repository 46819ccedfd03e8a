/**
 The update executor as the agent's code runs it, stage by stage, against the events of the agent's runs. What
 the outside answers (reports, the download, leases and cancellation, file operations, exec) is a World, and where
 an attempt stops follows from it.
 */
module SelfUpdate {
  import opened Basics
  import opened Protocol
  import opened AgentProtocol
  import opened CollectorModel
  import opened AgentRuns

  /** The context of a stage when it is looked at. */
  datatype Context = Live | CancelledNow | Lapsed

  /** The download: the digest of the bytes and whether the release signature verifies for them. */
  datatype Fetch = Fetched(digest: Hash, signed: bool) | FetchCancelled | FetchFailed

  /** Everything the executor asks of the outside during one attempt, in order. */
  datatype World = World(
    allowedSource: bool, reportsDownload: bool, fetch: Fetch, reportsVerify: bool, verifying: Context,
    verified: Context, located: bool, staged: bool, committing: Context, marks: bool, renames: bool,
    leased: bool, versioned: bool, stillLeased: bool, execs: bool)

  /** Where an attempt ends: in a stage that stops it, or with the new executable running. */
  datatype Trial = Stops(stage: Stage, cancelled: bool) | Executes

  /** The bytes are those the command names, and signed. */
  predicate Genuine(w: World, cmd: Command) {
    w.fetch.Fetched? && w.fetch.digest == cmd.sha && w.fetch.signed
  }

  /** Where the download stops an attempt. */
  function DownloadStops(w: World): Option<Trial> {
    if !w.allowedSource || !w.reportsDownload then Some(Stops(Started, false))
    else if !w.fetch.Fetched? || !w.reportsVerify then Some(Stops(Fetching, w.fetch.FetchCancelled?))
    else None
  }

  /** Where verification and staging stop it. */
  function VerifyStops(w: World, cmd: Command): Option<Trial> {
    if !w.verifying.Live? then Some(Stops(Checking, w.verifying.CancelledNow?))
    else if !Genuine(w, cmd) then Some(Stops(Checking, false))
    else if !w.verified.Live? then Some(Stops(Checking, w.verified.CancelledNow?))
    else if !w.located || !w.staged then Some(Stops(Checking, false))
    else None
  }

  /** Where an attempt ends that has taken the commit point. */
  function ReplaceStops(w: World): Trial {
    if !w.renames then Stops(Committed, false)
    else if !w.leased then Stops(Replaced, false)
    else if !w.versioned || !w.stillLeased || !w.execs then Stops(Relaunching, false)
    else Executes
  }

  /** Where the outside's answers stop an attempt. A quarantined agent takes the commit point without saving. */
  function TrialOf(w: World, cmd: Command, quarantined: bool): Trial {
    if DownloadStops(w).Some? then DownloadStops(w).value
    else if VerifyStops(w, cmd).Some? then VerifyStops(w, cmd).value
    else if !w.committing.Live? then Stops(Staged, w.committing.CancelledNow?)
    else if !w.marks && !quarantined then Stops(Staged, false)
    else ReplaceStops(w)
  }

  /** Everything up to the commit point went well: the right bytes were fetched, verified and staged in time, and the
      commit point was saved or needed no saving. */
  predicate Prepared(w: World, cmd: Command, quarantined: bool) {
    && w.allowedSource && w.reportsDownload && w.fetch == Fetched(cmd.sha, true) && w.reportsVerify
    && w.verifying == Live && w.verified == Live && w.located && w.staged && w.committing == Live
    && (w.marks || quarantined)
  }

  /** An update runs to the end, stops before the commit point, or is left past it, exactly as the outside lets it. */
  lemma TrialExactly(w: World, cmd: Command, quarantined: bool)
    ensures var trial := TrialOf(w, cmd, quarantined);
      var finishes := w.renames && w.leased && w.versioned && w.stillLeased && w.execs;
      && (trial.Executes? <==> Prepared(w, cmd, quarantined) && finishes)
      && (trial.Stops? && !PastCommit(trial.stage) <==> !Prepared(w, cmd, quarantined))
      && (trial.Stops? && trial.stage == Committed <==> Prepared(w, cmd, quarantined) && !w.renames)
      && (trial.Stops? && Installed(trial.stage) <==> Prepared(w, cmd, quarantined) && w.renames && !finishes)
      && (trial.Stops? && PastCommit(trial.stage) ==> !trial.cancelled)
  {
  }

  /** It counts as cancelled exactly if a cancelled context is the first thing that stops it. */
  lemma CancelledExactly(w: World, cmd: Command, quarantined: bool)
    ensures TrialOf(w, cmd, quarantined).Stops? && TrialOf(w, cmd, quarantined).cancelled <==>
      && w.allowedSource && w.reportsDownload
      && (w.fetch == FetchCancelled
          || (w.fetch.Fetched? && w.reportsVerify
              && (w.verifying == CancelledNow
                  || (w.verifying == Live && w.fetch == Fetched(cmd.sha, true)
                      && (w.verified == CancelledNow
                          || (w.verified == Live && w.located && w.staged && w.committing == CancelledNow))))))
  {
  }

  /** What the executor learns of an attempt: cancelled or failed before the commit point, settled after it, or
      replaced by the new process. */
  datatype Attempt = CancelledBefore | FailedBefore | SettledAfter | Executed

  const STAGES: seq<Event> := [Download, Check, WriteStaged, Commit, Install, Relaunch]

  /** How many stages lie behind one. */
  function Behind(stage: Stage): (k: nat)
    ensures k <= 6
  {
    match stage
    case Started => 0
    case Fetching => 1
    case Checking => 2
    case Staged => 3
    case Committed => 4
    case Replaced => 5
    case Relaunching => 6
  }

  function Passed(trial: Trial): (k: nat)
    ensures k <= 6
  {
    if trial.Executes? then 6 else Behind(trial.stage)
  }

  function Ending(trial: Trial): seq<Event> {
    match trial
    case Executes => []
    case Stops(stage, cancelled) => [if PastCommit(stage) then FailAfterCommit else StopBeforeCommit(cancelled)]
  }

  /** The events of one uninterrupted attempt. */
  function EventsOf(trial: Trial): seq<Event> {
    STAGES[..Passed(trial)] + Ending(trial)
  }

  /** The machine after the first k stages. */
  function Reached(m: Machine, k: nat): Machine
    requires k <= 6
  {
    Run(m, STAGES[..k])
  }

  lemma ReachedNext(m: Machine, k: nat)
    requires k < 6
    ensures Reached(m, k + 1) == Step(Reached(m, k), STAGES[k])
    ensures MachineOk(m) ==> MachineOk(Reached(m, k))
  {
    Unroll(m, STAGES, k);
    if MachineOk(m) { RunKeeps(m, STAGES[..k]); }
  }

  /** Agent and executable are where the first stages have brought them. */
  ghost predicate Follows(c: Collector, exe: Hash, m: Machine, cmd: Command, stage: Stage)
    reads c
  {
    var reached := Reached(m, Behind(stage));
    && reached.executor == Running(cmd, stage) && exe == reached.exe
    && c.state == reached.mem && c.disk == Held(reached.disk)
  }

  ghost predicate Settled(c: Collector, exe: Hash, m: Machine)
    reads c
  {
    c.state == m.mem && c.disk == Held(m.disk) && exe == m.exe
  }

  lemma ProgressEffect(m: Machine, e: Event, status: Status, next: Stage)
    requires MachineOk(m) && Enabled(m, e) && m.executor.Running?
    requires (e == Download && status == Downloading && next == Fetching)
             || (e == Check && status == Verifying && next == Checking)
             || (e == Relaunch && status == Restarting && next == Relaunching)
    ensures var m' := Step(m, e);
      && m'.executor == Running(m.executor.cmd, next) && m'.exe == m.exe && m'.mem == Progress(m.mem, status)
      && m'.disk == Saved(m'.mem, m.disk) && ProgressSaves(m.mem)
  {
  }

  /** Reporting and recording the start of a stage. */
  method EnterStage(c: Collector, cmd: Command, status: Status, ghost exe: Hash, ghost m: Machine, ghost stage: Stage,
                    ghost next: Stage)
    requires MachineOk(m) && Follows(c, exe, m, cmd, stage)
    requires (stage == Started && status == Downloading && next == Fetching)
             || (stage == Fetching && status == Verifying && next == Checking)
             || (stage == Replaced && status == Restarting && next == Relaunching)
    modifies c`state, c`disk
    ensures Follows(c, exe, m, cmd, next)
  {
    ReachedNext(m, Behind(stage));
    ProgressEffect(Reached(m, Behind(stage)), STAGES[Behind(stage)], status, next);
    c.UpdateTaskProgress(status, true);
  }

  lemma StageWritten(c: Collector, exe: Hash, m: Machine, cmd: Command)
    requires Follows(c, exe, m, cmd, Checking)
    ensures Follows(c, exe, m, cmd, Staged)
  {
    ReachedNext(m, 2);
  }

  /** Taking the commit point; when it cannot be saved, only the memory has it. */
  method EnterCommit(c: Collector, cmd: Command, marks: bool, ghost exe: Hash, ghost m: Machine) returns (ok: bool)
    requires MachineOk(m) && Follows(c, exe, m, cmd, Staged)
    modifies c`state, c`disk
    ensures ok <==> marks || old(c.state).control == Quarantined
    ensures ok ==> Follows(c, exe, m, cmd, Committed)
    ensures !ok ==> c.state == MarkCommit(old(c.state)) && c.disk == old(c.disk)
  {
    ReachedNext(m, 3);
    ok := c.MarkCommitPoint(marks);
  }

  lemma ExecutableReplaced(c: Collector, exe: Hash, m: Machine, cmd: Command)
    requires Follows(c, exe, m, cmd, Committed)
    ensures Follows(c, cmd.sha, m, cmd, Replaced)
  {
    ReachedNext(m, 4);
  }

  lemma Ends(m: Machine, e: Event, status: Status)
    requires MachineOk(m) && m.executor.Running?
    requires if PastCommit(m.executor.stage) then e == FailAfterCommit && status == Unknown
             else (e == StopBeforeCommit(true) && status == Cancelled)
                  || (e == StopBeforeCommit(false) && status == Failed)
    ensures var m' := Step(m, e);
      m.mem.task.Some? && m'.mem == Finish(m.mem, status) && m'.disk == Saved(m'.mem, m.disk) && m'.exe == m.exe
  {
  }

  lemma ReachedOk(m: Machine, k: nat)
    requires MachineOk(m) && k <= 6
    ensures MachineOk(Reached(m, k))
  {
    RunKeeps(m, STAGES[..k]);
  }

  /** A failure after the commit point leaves the outcome unknown. */
  method PostCommitFailure(c: Collector, cmd: Command, ghost exe: Hash, ghost m: Machine, ghost stage: Stage)
    requires MachineOk(m) && Follows(c, exe, m, cmd, stage) && PastCommit(stage)
    modifies c`state, c`disk
    ensures Settled(c, exe, Step(Reached(m, Behind(stage)), FailAfterCommit)) && c.state.task.None?
  {
    ReachedOk(m, Behind(stage));
    Ends(Reached(m, Behind(stage)), FailAfterCommit, Unknown);
    c.FinishUpdateTask(Unknown, true);
  }

  lemma ControlStep(m: Machine, k: nat)
    requires k < 3
    ensures Reached(m, k + 1).mem.control == Reached(m, k).mem.control
  {
    ReachedNext(m, k);
  }

  /** The first stages leave the control state alone. */
  lemma ControlStays(m: Machine)
    ensures Reached(m, 3).mem.control == m.mem.control
  {
    assert STAGES[..0] == [];
    ControlStep(m, 0);
    ControlStep(m, 1);
    ControlStep(m, 2);
  }

  /** Where the agent stands when an attempt stopped before the commit point. A commit point that could not be
      saved is in memory only. */
  ghost predicate Stopped(c: Collector, exe: Hash, m: Machine, cmd: Command, stage: Stage)
    reads c
  {
    var reached := Reached(m, Behind(stage));
    && reached.executor == Running(cmd, stage) && exe == reached.exe
    && (c.state == reached.mem || c.state == MarkCommit(reached.mem)) && c.disk == Held(reached.disk)
  }

  method DownloadBinary(c: Collector, cmd: Command, w: World, ghost exe: Hash, ghost m: Machine)
    returns (failure: Option<bool>, digest: Hash)
    requires MachineOk(m) && Follows(c, exe, m, cmd, Started)
    modifies c`state, c`disk
    ensures match DownloadStops(w)
            case Some(trial) => failure == Some(trial.cancelled) && Follows(c, exe, m, cmd, trial.stage)
            case None => failure == None && digest == w.fetch.digest && Follows(c, exe, m, cmd, Checking)
  {
    if !w.allowedSource || !w.reportsDownload {
      return Some(false), "";
    }
    EnterStage(c, cmd, Downloading, exe, m, Started, Fetching);
    if !w.fetch.Fetched? {
      return Some(w.fetch.FetchCancelled?), "";
    }
    digest := w.fetch.digest;
    if !w.reportsVerify {
      return Some(false), digest;
    }
    EnterStage(c, cmd, Verifying, exe, m, Fetching, Checking);
    return None, digest;
  }

  /** The bytes that get past verification are the ones the command names, and signed. */
  method VerifyBinary(c: Collector, cmd: Command, w: World, digest: Hash, ghost exe: Hash, ghost m: Machine)
    returns (failure: Option<bool>)
    requires MachineOk(m) && Follows(c, exe, m, cmd, Checking) && w.fetch.Fetched? && digest == w.fetch.digest
    ensures match VerifyStops(w, cmd)
            case Some(trial) => failure == Some(trial.cancelled)
            case None => failure == None && digest == cmd.sha && Follows(c, exe, m, cmd, Staged)
  {
    if !w.verifying.Live? {
      return Some(w.verifying.CancelledNow?);
    }
    if digest != cmd.sha || !w.fetch.signed {
      return Some(false);
    }
    if !w.verified.Live? {
      return Some(w.verified.CancelledNow?);
    }
    if !w.located || !w.staged {
      return Some(false);
    }
    StageWritten(c, exe, m, cmd);
    return None;
  }

  /** The stages up to the commit point, and the commit point itself. */
  method PrepareUpdate(c: Collector, cmd: Command, w: World, ghost exe: Hash, ghost m: Machine)
    returns (failure: Option<bool>, digest: Hash)
    requires MachineOk(m) && Follows(c, exe, m, cmd, Started)
    modifies c`state, c`disk
    ensures var trial := TrialOf(w, cmd, m.mem.control == Quarantined);
      if trial.Stops? && !PastCommit(trial.stage)
      then failure == Some(trial.cancelled) && Stopped(c, exe, m, cmd, trial.stage)
      else failure == None && Genuine(w, cmd) && digest == cmd.sha && Follows(c, exe, m, cmd, Committed)
  {
    failure, digest := DownloadBinary(c, cmd, w, exe, m);
    if failure.Some? {
      return;
    }
    failure := VerifyBinary(c, cmd, w, digest, exe, m);
    if failure.Some? {
      return;
    }
    if !w.committing.Live? {
      return Some(w.committing.CancelledNow?), digest;
    }
    ControlStays(m);
    var ok := EnterCommit(c, cmd, w.marks, exe, m);
    if !ok {
      return Some(false), digest;
    }
    return None, digest;
  }

  /** Where an attempt leaves the agent before its outcome is recorded. */
  ghost predicate Attempted(c: Collector, exe: Hash, m: Machine, cmd: Command, trial: Trial, attempt: Attempt)
    reads c
  {
    match trial
    case Executes => attempt == Executed && Follows(c, exe, m, cmd, Relaunching)
    case Stops(stage, cancelled) =>
      if PastCommit(stage) then
        attempt == SettledAfter && c.state.task.None?
        && Settled(c, exe, Step(Reached(m, Behind(stage)), FailAfterCommit))
      else
        attempt == (if cancelled then CancelledBefore else FailedBefore) && Stopped(c, exe, m, cmd, stage)
  }

  /** From the commit point on, every failure settles the task. Only the rename changes the executable. */
  method ReplaceAndExec(c: Collector, cmd: Command, exe: Hash, digest: Hash, w: World, ghost m: Machine)
    returns (attempt: Attempt, exe': Hash)
    requires MachineOk(m) && Follows(c, exe, m, cmd, Committed) && digest == cmd.sha
    modifies c`state, c`disk
    ensures Attempted(c, exe', m, cmd, ReplaceStops(w), attempt)
    ensures exe' == if w.renames then cmd.sha else exe
  {
    if !w.renames {
      PostCommitFailure(c, cmd, exe, m, Committed);
      return SettledAfter, exe;
    }
    ExecutableReplaced(c, exe, m, cmd);
    exe' := digest;
    if !w.leased {
      PostCommitFailure(c, cmd, exe', m, Replaced);
      return SettledAfter, exe';
    }
    EnterStage(c, cmd, Restarting, exe', m, Replaced, Relaunching);
    if !w.versioned || !w.stillLeased || !w.execs {
      PostCommitFailure(c, cmd, exe', m, Relaunching);
      return SettledAfter, exe';
    }
    return Executed, exe';
  }

  /** The staged update. */
  method RunSelfUpdate(c: Collector, cmd: Command, exe: Hash, w: World, ghost m: Machine)
    returns (attempt: Attempt, exe': Hash)
    requires MachineOk(m) && Follows(c, exe, m, cmd, Started)
    modifies c`state, c`disk
    ensures Attempted(c, exe', m, cmd, TrialOf(w, cmd, m.mem.control == Quarantined), attempt)
    ensures exe' == if Prepared(w, cmd, m.mem.control == Quarantined) && w.renames then cmd.sha else exe
  {
    TrialExactly(w, cmd, m.mem.control == Quarantined);
    var failure, digest := PrepareUpdate(c, cmd, w, exe, m);
    if failure.Some? {
      return if failure.value then CancelledBefore else FailedBefore, exe;
    }
    attempt, exe' := ReplaceAndExec(c, cmd, exe, digest, w, m);
  }

  lemma StillActive(c: Collector, exe: Hash, m: Machine, cmd: Command, stage: Stage)
    requires MachineOk(m) && Stopped(c, exe, m, cmd, stage)
    ensures c.state.task.Some?
  {
    ReachedOk(m, Behind(stage));
  }

  /** Recording an outcome for an attempt that stopped before the commit point. */
  method SettleBefore(c: Collector, cmd: Command, cancelled: bool, ghost exe: Hash, ghost m: Machine,
                      ghost stage: Stage)
    requires MachineOk(m) && Stopped(c, exe, m, cmd, stage) && !PastCommit(stage)
    modifies c`state, c`disk
    ensures Settled(c, exe, Step(Reached(m, Behind(stage)), StopBeforeCommit(cancelled)))
  {
    var status := if cancelled then Cancelled else Failed;
    ReachedOk(m, Behind(stage));
    Ends(Reached(m, Behind(stage)), StopBeforeCommit(cancelled), status);
    c.FinishUpdateTask(status, true);
  }

  /** An attempt without an outcome yet is given one. */
  method SettleAttempt(c: Collector, cmd: Command, attempt: Attempt, ghost exe: Hash, ghost m: Machine,
                       ghost trial: Trial)
    requires MachineOk(m) && Attempted(c, exe, m, cmd, trial, attempt)
    modifies c`state, c`disk
    ensures Settled(c, exe, Run(m, EventsOf(trial)))
  {
    EndOfRun(m, trial);
    if attempt.CancelledBefore? {
      SettleBefore(c, cmd, true, exe, m, trial.stage);
    } else if attempt.FailedBefore? || attempt.SettledAfter? {
      if attempt.FailedBefore? { StillActive(c, exe, m, cmd, trial.stage); }
      if c.state.task.Some? {
        SettleBefore(c, cmd, false, exe, m, trial.stage);
      }
    }
  }

  /** One execution of an admitted command, uninterrupted, is the run of its stages up to where the outside stops
      it: memory, disk and executable are exactly where that run brings them. The executable is replaced only by
      signed bytes with the digest the command names. */
  method RunUpdateTask(c: Collector, cmd: Command, exe: Hash, w: World, ghost m: Machine)
    returns (replaced: bool, exe': Hash)
    requires MachineOk(m) && Follows(c, exe, m, cmd, Started)
    modifies c
    ensures Settled(c, exe', Run(m, EventsOf(TrialOf(w, cmd, m.mem.control == Quarantined))))
    ensures replaced <==>
      Prepared(w, cmd, m.mem.control == Quarantined)
      && w.renames && w.leased && w.versioned && w.stillLeased && w.execs
    ensures exe' == if Prepared(w, cmd, m.mem.control == Quarantined) && w.renames then cmd.sha else exe
    ensures c.executing == replaced
  {
    TrialExactly(w, cmd, m.mem.control == Quarantined);
    c.executing, c.cancelled := true, false;
    var attempt;
    attempt, exe' := RunSelfUpdate(c, cmd, exe, w, m);
    SettleAttempt(c, cmd, attempt, exe', m, TrialOf(w, cmd, m.mem.control == Quarantined));
    replaced := attempt.Executed?;
    c.executing := replaced;
  }

  lemma CancelNoted(m: Machine, cmd: Command)
    requires MachineOk(m) && m.executor == Reporting(cmd) && m.mem.task.Some?
    ensures var m' := Step(Step(m, ReceiveCancel), AcceptReported);
      && MachineOk(m') && m'.executor == Running(cmd, Started) && m'.exe == m.exe
      && m'.mem == IntendCancel(m.mem) && m'.disk == Saved(m'.mem, m.disk)
  {
    StepKeeps(m, ReceiveCancel);
    StepKeeps(Step(m, ReceiveCancel), AcceptReported);
  }

  /** A cancel between admission and the start of the executor is answered as done and stops nothing: the executor
      then starts with a fresh context, and goes as far as the outside lets it. */
  method CancelBeforeStart(c: Collector, cmd: Command, exe: Hash, w: World, job: JobId, number: int, ghost m: Machine)
    returns (reply: StatusReport, replaced: bool, exe': Hash)
    requires MachineOk(m) && m.executor == Reporting(cmd) && Settled(c, exe, m) && !c.executing
    requires CancelReaches(c.state, job, number)
    modifies c
    ensures reply.status == Cancelled && reply.reject == None && reply.jobId == job
    ensures replaced <==>
      Prepared(w, cmd, m.mem.control == Quarantined)
      && w.renames && w.leased && w.versioned && w.stillLeased && w.execs
    ensures replaced ==> exe' == cmd.sha
  {
    ghost var m' := Step(Step(m, ReceiveCancel), AcceptReported);
    CancelNoted(m, cmd);
    reply := c.HandleCancelRequest(job, number, true);
    assert STAGES[..0] == [];
    replaced, exe' := RunUpdateTask(c, cmd, exe, w, m');
  }

  lemma EndOfRun(m: Machine, trial: Trial)
    ensures Run(m, EventsOf(trial)) ==
      if trial.Executes? then Reached(m, 6) else Step(Reached(m, Passed(trial)), Ending(trial)[0])
  {
    var es := EventsOf(trial);
    if trial.Stops? {
      assert es[..|es| - 1] == STAGES[..Passed(trial)];
    } else {
      assert es == STAGES[..6];
    }
  }

  // ---------------------------------------------------------------- the agent's other events as code

  /** The object's answer to a command is the machine's. */
  method Receive(c: Collector, cmd: Command, ghost exe: Hash, ghost m: Machine) returns (reply: Option<StatusReport>)
    requires Settled(c, exe, m)
    modifies c`state, c`disk
    ensures Settled(c, exe, Step(m, ReceiveCommand(cmd)))
  {
    reply := c.DispatchAgentCommand(cmd, true, true);
  }

  /** So are its handling of the server's answer, of a cancel request that is meant for its task, and of an admission
      that could not be reported. */
  method Acknowledge(c: Collector, ack: Ack, ghost exe: Hash, ghost m: Machine)
    requires Settled(c, exe, m)
    modifies c`state, c`disk
    ensures Settled(c, exe, Step(m, ReceiveAck(ack)))
  {
    c.ApplyHandshakeAck(ack, true);
  }

  method Cancel(c: Collector, job: JobId, number: int, ghost exe: Hash, ghost m: Machine) returns (reply: StatusReport)
    requires Settled(c, exe, m) && (c.state.task.Some? ==> CancelMatches(c.state, job, number))
    modifies c`state, c`disk, c`cancelled
    ensures Settled(c, exe, Step(m, ReceiveCancel))
  {
    reply := c.HandleCancelRequest(job, number, true);
  }

  method GiveUp(c: Collector, cmd: Command, ghost exe: Hash, ghost m: Machine)
    requires MachineOk(m) && Settled(c, exe, m) && m.executor == Reporting(cmd)
    modifies c`state, c`disk
    ensures Settled(c, exe, Step(m, AcceptReportFailed))
  {
    c.AbortUpdateTask(cmd, true);
  }

  /** A crash at any point: a new object loads what the old one left on the disk. */
  method Restarts(c: Collector, exe: Hash, readable: bool, ghost m: Machine) returns (restarted: Collector)
    requires c.disk == Held(m.disk) && exe == m.exe
    ensures fresh(restarted) && Settled(restarted, exe, Step(m, Restart(readable)))
  {
    restarted := new Collector.Load(c.disk, if readable then Some(exe) else None, true);
  }
}
