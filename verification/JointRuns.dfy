/**
 One node's rows on the server, its agent, and a network that may repeat,
 reorder, delay and lose messages. The server may be restored at any time to
 the rows of any earlier moment, and the agent may crash at any time.
 */
module JointRuns {
  import opened Basics
  import opened Protocol
  import opened NodeTables
  import opened NodeInvariants
  import S = ServerRuns
  import H = HandshakeExchange
  import P = AgentProtocol
  import A = AgentRuns
  import T = TransactionLaws

  datatype Message =
    | CommandMessage(cmd: Command)
    | AckMessage(ack: Ack)
    | HandshakeMessage(payload: Handshake)
    | GapMessage(streamId: StreamId, watermark: int)

  /** The joint state. Kept of the past: all rows so far, the sequence issued with each job, and the
      sequences the server had closed at some time. Messages once sent stay available. */
  datatype System = System(
    rows: NodeRows, past: set<NodeRows>, agent: A.Machine, net: set<Message>,
    issued: map<JobId, int>, closed: set<A.Slot>)

  datatype Step =
    | Create(job: JobId, sha: Hash, newId: StreamId, now: int)
    | ServerEvent(event: S.Event)
    | SendCommand(job: JobId, version: string)
    | TakeQuarantine(payload: Handshake, newId: StreamId)
    | TakeHandshake(payload: Handshake, newId: StreamId)
    | TakeRecord(payload: Handshake, index: nat, now: int)
    | TakeInProgress(payload: Handshake)
    | TakeGap(streamId: StreamId, watermark: int, newId: StreamId)
    | SendAck
    | Restore(snapshot: NodeRows)
    | AgentEvent(local: A.Event)
    | SendHandshake
    | SendGap

  /** Server events that need no message: status reports may be any at all. */
  predicate Spontaneous(e: S.Event) {
    e.Deliver? || e.StatusReported? || e.Cancelled? || e.Disposed? || e.Pruned?
  }

  predicate Enabled(s: System, step: Step) {
    match step
    case Create(job, _, newId, _) => job !in s.issued && newId != ""
    case ServerEvent(e) =>
      Spontaneous(e) && (e.Cancelled? && e.job in s.rows.targets ==> s.rows.targets[e.job].number > 0)
    case SendCommand(job, _) =>
      job in s.rows.targets && s.rows.targets[job].number > 0
      && s.rows.stream.Some? && s.rows.stream.value.control == Open
    case TakeQuarantine(p, newId) => HandshakeMessage(p) in s.net && p.control == Quarantined && newId != ""
    case TakeHandshake(p, newId) => HandshakeMessage(p) in s.net && newId != ""
    case TakeRecord(p, i, _) => HandshakeMessage(p) in s.net && i < |p.records|
    case TakeInProgress(p) => HandshakeMessage(p) in s.net && p.inProgress.Some?
    case TakeGap(id, w, newId) => GapMessage(id, w) in s.net && id != "" && newId != ""
    case SendAck => s.rows.stream.Some?
    case Restore(r) => r in s.past
    case AgentEvent(e) =>
      && (e.ReceiveCommand? && e.cmd.number > 0 ==> CommandMessage(e.cmd) in s.net)
      && (e.ReceiveAck? ==> AckMessage(e.ack) in s.net)
    case SendHandshake => true
    case SendGap => true
  }

  function ClosedSlots(r: NodeRows): set<A.Slot> {
    if r.stream.None? then {} else set n | n in ClosedSeqs(r) :: A.Slot(r.stream.value.id, n)
  }

  function WithRows(s: System, r: NodeRows): System {
    s.(rows := r, past := s.past + {r}, closed := s.closed + ClosedSlots(r))
  }

  function Send(s: System, m: Message): System {
    s.(net := s.net + {m})
  }

  function Effect(s: System, step: Step): System
    requires Enabled(s, step)
  {
    match step
    case Create(job, sha, newId, now) =>
      var r := Allocate(s.rows, job, sha, newId, now);
      WithRows(s, r).(issued := s.issued[job := r.targets[job].number])
    case ServerEvent(e) => WithRows(s, S.Apply(s.rows, e))
    case SendCommand(job, version) =>
      var t := s.rows.targets[job];
      Send(s, CommandMessage(Command(job, version, t.sha, t.streamId, t.number)))
    case TakeQuarantine(p, newId) => WithRows(s, S.Apply(s.rows, S.QuarantineReported(newId)))
    case TakeHandshake(p, newId) => WithRows(s, S.Apply(s.rows, S.Reconciled(newId, p.streamId, p.watermark)))
    case TakeRecord(p, i, now) => WithRows(s, S.Apply(s.rows, S.RecordReported(p.records[i], now)))
    case TakeInProgress(p) => WithRows(s, S.Apply(s.rows, S.InProgressReported(p.inProgress.value)))
    case TakeGap(id, w, newId) => WithRows(s, S.Apply(s.rows, S.Reconciled(newId, id, w)))
    case SendAck => Send(s, AckMessage(H.AckOf(s.rows)))
    case Restore(r) => s.(rows := r)
    case AgentEvent(e) => s.(agent := A.Step(s.agent, e))
    case SendHandshake => Send(s, HandshakeMessage(P.HandshakeOf(s.agent.mem)))
    case SendGap => Send(s, GapMessage(s.agent.mem.streamId, s.agent.mem.watermark))
  }

  function Next(s: System, step: Step): System {
    if Enabled(s, step) then Effect(s, step) else s
  }

  function Run(s: System, steps: seq<Step>): System
    decreases |steps|
  {
    if steps == [] then s else Next(Run(s, steps[..|steps| - 1]), steps[|steps| - 1])
  }

  /** Rows from before the protocol and a newly installed agent. */
  function Start(legacy: NodeRows, exe: Hash): System {
    System(legacy, {legacy}, A.Fresh(exe), {}, map j | j in legacy.targets :: 0, {})
  }

  // ---------------------------------------------------------------- the joint invariant

  /** The sequence had an outcome on the agent, or had been closed on the server. */
  predicate Accounted(s: System, slot: A.Slot) {
    slot in s.agent.settled || slot in s.closed
  }

  ghost predicate AccountedUpTo(s: System, id: StreamId, watermark: int) {
    forall n :: 1 <= n <= watermark ==> Accounted(s, A.Slot(id, n))
  }

  ghost predicate RowsOk(s: System, r: NodeRows) {
    && Sound(r) && FailClosed(r)
    && (forall j :: j in r.targets ==> j in s.issued && s.issued[j] == r.targets[j].number)
    && (r.stream.Some? ==> r.stream.value.id != "" && AccountedUpTo(s, r.stream.value.id, r.stream.value.retired))
    && ClosedSlots(r) <= s.closed
  }

  ghost predicate AgentStateOk(s: System, a: P.State) {
    P.Promise(a) && AccountedUpTo(s, a.streamId, a.watermark)
  }

  ghost predicate MessageOk(s: System, m: Message) {
    match m
    case CommandMessage(cmd) => cmd.number > 0 ==> cmd.jobId in s.issued && s.issued[cmd.jobId] == cmd.number
    case AckMessage(ack) => ack.streamId != "" && AccountedUpTo(s, ack.streamId, ack.watermark)
    case HandshakeMessage(p) =>
      && (p.streamId == "" ==> p.watermark <= 0)
      && AccountedUpTo(s, p.streamId, p.watermark)
      && (p.inProgress.Some? ==> InProgress(p.inProgress.value.stage))
    case GapMessage(id, w) => AccountedUpTo(s, id, w)
  }

  ghost predicate AdmittedOk(s: System) {
    forall e :: e in s.agent.admitted ==> e.job in s.issued && s.issued[e.job] == e.slot.number
  }

  ghost predicate SystemOk(s: System) {
    && s.rows in s.past
    && (forall r :: r in s.past ==> RowsOk(s, r))
    && A.MachineOk(s.agent) && AgentStateOk(s, s.agent.mem) && AgentStateOk(s, s.agent.disk)
    && (forall m :: m in s.net ==> MessageOk(s, m))
    && AdmittedOk(s)
  }

  /** Knowledge of the past only grows. */
  ghost predicate Grows(s: System, s': System) {
    && (forall j :: j in s.issued ==> j in s'.issued && s'.issued[j] == s.issued[j])
    && s.closed <= s'.closed && s.agent.settled <= s'.agent.settled
  }

  lemma RowsGrow(s: System, s': System, r: NodeRows)
    requires Grows(s, s') && RowsOk(s, r)
    ensures RowsOk(s', r)
  {
  }

  lemma MessageGrows(s: System, s': System, m: Message)
    requires Grows(s, s') && MessageOk(s, m)
    ensures MessageOk(s', m)
  {
  }

  /** A step that keeps the past, the messages and the agent only has to justify what it adds. */
  lemma ServerAdds(s: System, s': System, r: NodeRows)
    requires SystemOk(s) && Grows(s, s')
    requires s'.agent == s.agent && s'.net == s.net && s'.past == s.past + {r} && s'.rows == r
    requires RowsOk(s', r)
    ensures SystemOk(s')
  {
    forall q | q in s'.past
      ensures RowsOk(s', q)
    {
      if q in s.past { RowsGrow(s, s', q); }
    }
    forall m | m in s'.net
      ensures MessageOk(s', m)
    {
      MessageGrows(s, s', m);
    }
  }

  lemma MessageAdds(s: System, m: Message)
    requires SystemOk(s) && MessageOk(s, m)
    ensures SystemOk(Send(s, m))
  {
    var s' := Send(s, m);
    forall r | r in s'.past
      ensures RowsOk(s', r)
    {
      RowsGrow(s, s', r);
    }
    forall x | x in s'.net
      ensures MessageOk(s', x)
    {
      if x in s.net { MessageGrows(s, s', x); }
    }
    assert MessageOk(s', m);
  }

  /** A server event keeps the sequence of every target, and adds none unless it creates one. */
  lemma EventTargets(r: NodeRows, e: S.Event, j: JobId)
    requires Sound(r) && S.Allowed(r, e) && !e.Create? && j in S.Apply(r, e).targets
    ensures j in r.targets && S.Apply(r, e).targets[j].number == r.targets[j].number
  {
    S.StepNumbers(r, e, j);
  }

  lemma EventStream(r: NodeRows, e: S.Event)
    requires r.stream.Some? ==> r.stream.value.id != ""
    requires (e.Create? || e.Reconciled? || e.QuarantineReported?) ==> e.newId != ""
    ensures S.Apply(r, e).stream.Some? ==> S.Apply(r, e).stream.value.id != ""
  {
  }

  /** What an event raises the stored watermark to is closed here or was reported. */
  lemma EventAccounted(s: System, s': System, e: S.Event)
    requires RowsOk(s, s.rows) && S.Allowed(s.rows, e) && Grows(s, s')
    requires ClosedSlots(S.Apply(s.rows, e)) <= s'.closed
    requires e.Reconciled? && e.agentStream != "" ==> AccountedUpTo(s, e.agentStream, e.watermark)
    ensures var r' := S.Apply(s.rows, e);
      r'.stream.Some? ==> AccountedUpTo(s', r'.stream.value.id, r'.stream.value.retired)
  {
    var r, r' := s.rows, S.Apply(s.rows, e);
    S.StepKeeps(r, e, if r.stream.Some? then r.stream.value.retired else 0);
    if r'.stream.Some? {
      var id := r'.stream.value.id;
      forall n | 1 <= n <= r'.stream.value.retired
        ensures Accounted(s', A.Slot(id, n))
      {
        if n in ClosedSeqs(r') {
          assert A.Slot(id, n) in ClosedSlots(r');
        } else if r.stream.Some? && n <= r.stream.value.retired {
          assert Accounted(s, A.Slot(id, n));
        } else {
          ReportedRaise(r, e, n);
          assert Accounted(s, A.Slot(id, n));
        }
      }
    }
  }

  /** Only a reconciliation with the node's own stream raises the watermark past closed sequences. */
  lemma ReportedRaise(r: NodeRows, e: S.Event, n: int)
    requires Sound(r) && S.Allowed(r, e) && S.Apply(r, e).stream.Some?
    requires 1 <= n <= S.Apply(r, e).stream.value.retired && n !in ClosedSeqs(S.Apply(r, e))
    requires r.stream.Some? ==> n > r.stream.value.retired
    ensures e.Reconciled? && n <= e.watermark && e.agentStream != "" && e.agentStream == S.Apply(r, e).stream.value.id
  {
    var base := if r.stream.Some? then r.stream.value.retired else 0;
    JustifiedBase(r);
    S.StepKeeps(r, e, base);
  }

  lemma JustifiedBase(r: NodeRows)
    requires Sound(r)
    ensures Justified(r, if r.stream.Some? then r.stream.value.retired else 0)
  {
  }

  lemma ServerStep(s: System, e: S.Event)
    requires SystemOk(s) && S.Allowed(s.rows, e) && !e.Create?
    requires (e.Reconciled? || e.QuarantineReported?) ==> e.newId != ""
    requires e.Reconciled? && e.agentStream != "" ==> AccountedUpTo(s, e.agentStream, e.watermark)
    ensures SystemOk(WithRows(s, S.Apply(s.rows, e)))
  {
    var r' := S.Apply(s.rows, e);
    var s' := WithRows(s, r');
    S.StepKeeps(s.rows, e, 0);
    EventStream(s.rows, e);
    EventAccounted(s, s', e);
    forall j | j in r'.targets
      ensures j in s'.issued && s'.issued[j] == r'.targets[j].number
    {
      EventTargets(s.rows, e, j);
    }
    ServerAdds(s, s', r');
  }

  lemma CreateStep(s: System, job: JobId, sha: Hash, newId: StreamId, now: int)
    requires SystemOk(s) && job !in s.issued && newId != ""
    ensures SystemOk(Next(s, Create(job, sha, newId, now)))
  {
    var e := S.Create(job, sha, newId, now);
    var r' := S.Apply(s.rows, e);
    var s' := Next(s, Create(job, sha, newId, now));
    S.StepKeeps(s.rows, e, 0);
    EventStream(s.rows, e);
    EventAccounted(s, s', e);
    forall j | j in r'.targets
      ensures j in s'.issued && s'.issued[j] == r'.targets[j].number
    {
      if j != job {
        S.StepNumbers(s.rows, e, j);
      }
    }
    ServerAdds(s, s', r');
  }

  /** The mark stays. */
  lemma SameMark(s: System, s': System, a: P.State, a': P.State)
    requires AgentStateOk(s, a) && Grows(s, s')
    requires a'.streamId == a.streamId && a'.watermark == a.watermark
    ensures AgentStateOk(s', a')
  {
  }

  /** The mark passes the sequence of the task that got its outcome. */
  lemma SettledMark(s: System, s': System, a: P.State, a': P.State)
    requires P.AgentOk(a) && AgentStateOk(s, a) && Grows(s, s') && a.task.Some?
    requires a'.streamId == a.streamId && a.watermark <= a'.watermark <= Max(a.watermark, a.task.value.number)
    requires a.task.value.number > 0 ==> A.Slot(a.streamId, a.task.value.number) in s'.agent.settled
    ensures AgentStateOk(s', a')
  {
  }

  /** The mark is raised by an acknowledgement that accounts for it. */
  lemma AckMark(s: System, a: P.State, ack: Ack)
    requires AgentStateOk(s, a) && ack.streamId != "" && AccountedUpTo(s, ack.streamId, ack.watermark)
    requires 0 <= a.watermark
    ensures AgentStateOk(s, P.ApplyAck(a, ack))
  {
  }

  /** The watermark passes only sequences that got an outcome, or that an acknowledgement accounts for. */
  lemma QuietAccounted(s: System, e: A.Event)
    requires A.MachineOk(s.agent) && AgentStateOk(s, s.agent.mem) && AgentStateOk(s, s.agent.disk)
    requires !e.ReceiveAck? && !A.EndsTask(e)
    ensures var s' := s.(agent := A.Step(s.agent, e));
      Grows(s, s') && AgentStateOk(s', s'.agent.mem) && AgentStateOk(s', s'.agent.disk)
  {
    var s' := s.(agent := A.Step(s.agent, e));
    QuietMark(s.agent, e);
    SameMark(s, s', s.agent.mem, s'.agent.mem);
    if s'.agent.disk == s.agent.disk {
      SameMark(s, s', s.agent.disk, s'.agent.disk);
    }
  }

  lemma QuietMark(m: A.Machine, e: A.Event)
    requires !e.ReceiveAck? && !A.EndsTask(e)
    ensures var m' := A.Step(m, e);
      && m'.settled == m.settled && m'.mem.streamId == m.mem.streamId && m'.mem.watermark == m.mem.watermark
      && (m'.disk == m.disk || m'.disk == m'.mem)
  {
  }

  lemma AckAccounted(s: System, ack: Ack)
    requires A.MachineOk(s.agent) && AgentStateOk(s, s.agent.mem) && AgentStateOk(s, s.agent.disk)
    requires ack.streamId != "" && AccountedUpTo(s, ack.streamId, ack.watermark)
    ensures var s' := s.(agent := A.Step(s.agent, A.ReceiveAck(ack)));
      Grows(s, s') && AgentStateOk(s', s'.agent.mem) && AgentStateOk(s', s'.agent.disk)
  {
    var s' := s.(agent := A.Step(s.agent, A.ReceiveAck(ack)));
    AckMark(s, s.agent.mem, ack);
    SameMark(s, s', P.ApplyAck(s.agent.mem, ack), s'.agent.mem);
    SameMark(s, s', s.agent.disk, s.agent.disk);
  }

  lemma EndAccounted(s: System, e: A.Event)
    requires A.MachineOk(s.agent) && AgentStateOk(s, s.agent.mem) && AgentStateOk(s, s.agent.disk)
    requires A.EndsTask(e)
    ensures var s' := s.(agent := A.Step(s.agent, e));
      Grows(s, s') && AgentStateOk(s', s'.agent.mem) && AgentStateOk(s', s'.agent.disk)
  {
    var m := s.agent;
    var m' := A.Step(m, e);
    var s' := s.(agent := m');
    if A.Enabled(m, e) {
      EndMark(m, e);
      var a := if e.Restart? then m.disk else m.mem;
      if a.task.Some? {
        SettledMark(s, s', a, m'.mem);
      } else {
        SameMark(s, s', a, m'.mem);
      }
      if m'.disk == m.disk {
        SameMark(s, s', m.disk, m'.disk);
      }
    }
  }

  lemma EndMark(m: A.Machine, e: A.Event)
    requires A.MachineOk(m) && A.EndsTask(e) && A.Enabled(m, e)
    ensures var m' := A.Step(m, e);
      var a := if e.Restart? then m.disk else m.mem;
      && m.settled <= m'.settled && (m'.disk == m.disk || m'.disk == m'.mem)
      && m'.mem.streamId == a.streamId
      && (a.task.None? ==> m'.mem.watermark == a.watermark)
      && (a.task.Some? ==>
            && a.watermark <= m'.mem.watermark <= Max(a.watermark, a.task.value.number)
            && (a.task.value.number > 0 ==> A.Slot(a.streamId, a.task.value.number) in m'.settled))
  {
  }

  // ---------------------------------------------------------------- the agent's steps

  lemma AdmittedStep(s: System, e: A.Event)
    requires AdmittedOk(s)
    requires e.ReceiveCommand? && e.cmd.number > 0 ==> e.cmd.jobId in s.issued && s.issued[e.cmd.jobId] == e.cmd.number
    ensures AdmittedOk(s.(agent := A.Step(s.agent, e)))
  {
    var s' := s.(agent := A.Step(s.agent, e));
    forall x | x in s'.agent.admitted
      ensures x.job in s'.issued && s'.issued[x.job] == x.slot.number
    {
      AdmittedFrom(s.agent, e, x);
    }
  }

  lemma AdmittedFrom(m: A.Machine, e: A.Event, x: A.Entry)
    requires x in A.Step(m, e).admitted
    ensures x in m.admitted ||
              (e.ReceiveCommand? && e.cmd.number > 0 && x.job == e.cmd.jobId && x.slot.number == e.cmd.number)
  {
  }

  lemma AgentStep(s: System, e: A.Event)
    requires SystemOk(s) && Enabled(s, AgentEvent(e))
    ensures SystemOk(Next(s, AgentEvent(e)))
  {
    var s' := Next(s, AgentEvent(e));
    if e.ReceiveCommand? && e.cmd.number > 0 {
      assert MessageOk(s, CommandMessage(e.cmd));
    }
    A.StepKeeps(s.agent, e);
    AdmittedStep(s, e);
    if e.ReceiveAck? {
      assert MessageOk(s, AckMessage(e.ack));
      AckAccounted(s, e.ack);
    } else if A.EndsTask(e) {
      EndAccounted(s, e);
    } else {
      QuietAccounted(s, e);
    }
    forall r | r in s'.past
      ensures RowsOk(s', r)
    {
      RowsGrow(s, s', r);
    }
    forall m | m in s'.net
      ensures MessageOk(s', m)
    {
      MessageGrows(s, s', m);
    }
  }

  lemma HandshakeOk(s: System)
    requires SystemOk(s)
    ensures MessageOk(s, HandshakeMessage(P.HandshakeOf(s.agent.mem)))
  {
  }

  /** A message of the server or of the agent. */
  predicate Sends(step: Step) {
    step.SendCommand? || step.SendAck? || step.SendHandshake? || step.SendGap?
  }

  lemma SendStep(s: System, step: Step)
    requires SystemOk(s) && Enabled(s, step) && Sends(step)
    ensures SystemOk(Effect(s, step))
  {
    assert RowsOk(s, s.rows);
    match step {
      case SendCommand(job, version) =>
        var t := s.rows.targets[job];
        MessageAdds(s, CommandMessage(Command(job, version, t.sha, t.streamId, t.number)));
      case SendAck => MessageAdds(s, AckMessage(H.AckOf(s.rows)));
      case SendHandshake =>
        HandshakeOk(s);
        MessageAdds(s, HandshakeMessage(P.HandshakeOf(s.agent.mem)));
      case SendGap => MessageAdds(s, GapMessage(s.agent.mem.streamId, s.agent.mem.watermark));
    }
  }

  /** A message of the agent that the server takes. */
  predicate Takes(step: Step) {
    step.TakeQuarantine? || step.TakeHandshake? || step.TakeRecord? || step.TakeInProgress? || step.TakeGap?
  }

  lemma TakeStep(s: System, step: Step)
    requires SystemOk(s) && Enabled(s, step) && Takes(step)
    ensures SystemOk(Effect(s, step))
  {
    match step {
      case TakeQuarantine(p, newId) => ServerStep(s, S.QuarantineReported(newId));
      case TakeHandshake(p, newId) =>
        assert MessageOk(s, HandshakeMessage(p));
        ServerStep(s, S.Reconciled(newId, p.streamId, p.watermark));
      case TakeRecord(p, i, now) => ServerStep(s, S.RecordReported(p.records[i], now));
      case TakeInProgress(p) =>
        assert MessageOk(s, HandshakeMessage(p));
        ServerStep(s, S.InProgressReported(p.inProgress.value));
      case TakeGap(id, w, newId) =>
        assert MessageOk(s, GapMessage(id, w));
        ServerStep(s, S.Reconciled(newId, id, w));
    }
  }

  lemma StepKeeps(s: System, step: Step)
    requires SystemOk(s)
    ensures SystemOk(Next(s, step))
  {
    if Enabled(s, step) {
      if Sends(step) {
        SendStep(s, step);
      } else if Takes(step) {
        TakeStep(s, step);
      } else if step.Create? {
        CreateStep(s, step.job, step.sha, step.newId, step.now);
      } else if step.ServerEvent? {
        ServerStep(s, step.event);
      } else if step.Restore? {
        RestoreStep(s, step.snapshot);
      } else {
        AgentStep(s, step.local);
      }
    }
  }

  lemma RestoreStep(s: System, r: NodeRows)
    requires SystemOk(s) && r in s.past
    ensures SystemOk(s.(rows := r))
  {
    var s' := s.(rows := r);
    forall q | q in s'.past
      ensures RowsOk(s', q)
    {
      RowsGrow(s, s', q);
    }
    forall m | m in s'.net
      ensures MessageOk(s', m)
    {
      MessageGrows(s, s', m);
    }
  }

  lemma {:induction false} RunKeeps(s: System, steps: seq<Step>)
    requires SystemOk(s)
    ensures SystemOk(Run(s, steps))
    decreases |steps|
  {
    if steps != [] {
      RunKeeps(s, steps[..|steps| - 1]);
      StepKeeps(Run(s, steps[..|steps| - 1]), steps[|steps| - 1]);
    }
  }

  lemma StartOk(legacy: NodeRows, exe: Hash)
    requires S.Initial(legacy)
    ensures SystemOk(Start(legacy, exe))
  {
    assert ClosedSlots(legacy) == {};
  }

  // ---------------------------------------------------------------- what every reachable state satisfies

  /** The server's rows stay sound and fail closed against its own agent: the guarantees the transactions
      ask of reports are met by everything this agent ever sends. */
  lemma RowsAlwaysSound(legacy: NodeRows, exe: Hash, steps: seq<Step>)
    requires S.Initial(legacy)
    ensures Sound(Run(Start(legacy, exe), steps).rows) && FailClosed(Run(Start(legacy, exe), steps).rows)
  {
    StartOk(legacy, exe);
    RunKeeps(Start(legacy, exe), steps);
  }

  /** Nothing is skipped silently: every sequence below the agent's watermark, in memory or on disk, or
      below the server's, had an outcome on the agent or had been closed on the server. */
  lemma NothingSkipped(legacy: NodeRows, exe: Hash, steps: seq<Step>)
    requires S.Initial(legacy)
    ensures var s := Run(Start(legacy, exe), steps);
      && AccountedUpTo(s, s.agent.mem.streamId, s.agent.mem.watermark)
      && AccountedUpTo(s, s.agent.disk.streamId, s.agent.disk.watermark)
      && (s.rows.stream.Some? ==> AccountedUpTo(s, s.rows.stream.value.id, s.rows.stream.value.retired))
  {
    StartOk(legacy, exe);
    RunKeeps(Start(legacy, exe), steps);
  }

  /** At these rows, the server had closed the sequence. */
  predicate ClosedAt(r: NodeRows, slot: A.Slot) {
    r.stream.Some? && r.stream.value.id == slot.streamId && slot.number > 0 && T.ClosedIn(r, slot.number)
  }

  ghost predicate WasClosed(s: System, slot: A.Slot) {
    exists r :: r in s.past && ClosedAt(r, slot)
  }

  lemma ClosedSlot(r: NodeRows, slot: A.Slot)
    requires Sound(r)
    ensures slot in ClosedSlots(r) <==> ClosedAt(r, slot)
  {
    if slot.number > 0 { T.ClosedExactly(r, slot.number); }
  }

  /** The past gains the new rows, and the closed sequences gain theirs. */
  predicate Remembers(s: System, s': System) {
    s'.past == s.past + {s'.rows} && s'.closed == s.closed + ClosedSlots(s'.rows)
  }

  lemma OldRowsRemembered(s: System, s': System)
    requires SystemOk(s) && s'.rows in s.past && s'.past == s.past && s'.closed == s.closed
    ensures Remembers(s, s')
  {
    assert RowsOk(s, s'.rows);
  }

  lemma CreateRemembers(s: System, step: Step)
    requires step.Create? && Enabled(s, step)
    ensures Remembers(s, Effect(s, step))
  {
  }

  lemma StepRemembers(s: System, step: Step)
    requires SystemOk(s)
    ensures Remembers(s, Next(s, step))
  {
    if Enabled(s, step) && step.Create? {
      CreateRemembers(s, step);
    } else if !Enabled(s, step) || !(Takes(step) || step.ServerEvent?) {
      OldRowsRemembered(s, Next(s, step));
    }
  }

  lemma Remembered(s: System, s': System, slot: A.Slot)
    requires Remembers(s, s') && Sound(s'.rows)
    requires slot in s.closed <==> WasClosed(s, slot)
    ensures slot in s'.closed <==> WasClosed(s', slot)
  {
    ClosedSlot(s'.rows, slot);
  }

  lemma {:induction false} RunRemembers(s: System, steps: seq<Step>, slot: A.Slot)
    requires SystemOk(s) && (slot in s.closed <==> WasClosed(s, slot))
    ensures slot in Run(s, steps).closed <==> WasClosed(Run(s, steps), slot)
    decreases |steps|
  {
    if steps != [] {
      var front := steps[..|steps| - 1];
      RunKeeps(s, front);
      RunKeeps(s, steps);
      RunRemembers(s, front, slot);
      StepRemembers(Run(s, front), steps[|steps| - 1]);
      assert RowsOk(Run(s, steps), Run(s, steps).rows);
      Remembered(Run(s, front), Run(s, steps), slot);
    }
  }

  /** The sequences said to be closed are those that the rows showed as closed at some moment of the run. */
  lemma ClosedExactly(legacy: NodeRows, exe: Hash, steps: seq<Step>, slot: A.Slot)
    requires S.Initial(legacy)
    ensures var s := Run(Start(legacy, exe), steps);
      slot in s.closed <==> WasClosed(s, slot)
  {
    StartOk(legacy, exe);
    ClosedSlot(legacy, slot);
    assert ClosedSlots(legacy) == {};
    RunRemembers(Start(legacy, exe), steps, slot);
  }

  /** Each job's update starts at most once on the node, over every run with repeated, reordered and lost
      messages, crashes of the agent, and restores of the server. */
  lemma EachJobAtMostOnce(legacy: NodeRows, exe: Hash, steps: seq<Step>, i: nat, j: nat)
    requires S.Initial(legacy)
    requires i < j < |Run(Start(legacy, exe), steps).agent.admitted|
    ensures var admitted := Run(Start(legacy, exe), steps).agent.admitted;
      admitted[i].job != admitted[j].job && admitted[i].slot.number < admitted[j].slot.number
  {
    StartOk(legacy, exe);
    RunKeeps(Start(legacy, exe), steps);
    var s := Run(Start(legacy, exe), steps);
    var numbers := A.Numbers(s.agent.admitted);
    assert numbers[i] < numbers[j];
    assert s.agent.admitted[i] in s.agent.admitted && s.agent.admitted[j] in s.agent.admitted;
  }

  /** A job given the sequence of the agent's unfinished task is swallowed: the agent answers with the other
      job's state and never runs it. */
  lemma SecondJobSwallowed(a: P.State, cmd: Command)
    requires P.AgentOk(a) && a.control == Open && a.task.Some?
    requires cmd.number > 0 && cmd.number == a.task.value.number && cmd.streamId == a.streamId
    requires cmd.jobId != a.task.value.jobId
    ensures P.Begin(a, cmd) == a
    ensures P.Admit(a, cmd).Replayed? || P.Admit(a, cmd) == P.Rejected(Expired)
    ensures P.Admit(a, cmd).Replayed? ==> P.Admit(a, cmd).record.jobId == a.task.value.jobId
  {
    var i :| 0 <= i < |a.records| && a.records[i].key == a.task.value.key;
    P.IndexUnique(a.records, i);
  }
}
