/**
 The hub of agent connections. Every registration gets a new generation; a
 registration fences the connection it replaces. Register, the event loop,
 unregistration and Close interleave at their critical sections: a
 registration first enters the map and only later queues a message for the
 loop, and Close first clears the map and only later signals the loop. A
 connection object is identified by its generation.
 */
module Hub {
  import opened Protocol

  datatype Conn = Conn(node: NodeId, fenced: bool, handshakeDone: bool, deadline: int)

  datatype State = State(
    entries: map<nat, Conn>, agents: map<NodeId, nat>, nextGen: nat,
    entering: set<nat>, registerQueue: seq<nat>, unregisterQueue: seq<(NodeId, nat)>,
    closing: bool, closed: bool, stopped: bool, writes: seq<nat>)

  const INITIAL := State(map[], map[], 0, {}, [], [], false, false, false, [])

  datatype Event =
    | RegisterEnter(node: NodeId, deadline: int)
    | RegisterQueue(gen: nat)
    | RegisterUndo(gen: nat)
    | LoopRegister
    | RequestUnregister(node: NodeId, gen: nat)
    | LoopUnregister
    | CloseEnter
    | CloseSignal
    | LoopShutdown
    | HandshakeDone(node: NodeId, gen: nat)
    | Write(node: NodeId)

  function Fenced(c: Conn): Conn { c.(fenced := true) }

  /** All connections in the map fenced. */
  function FenceAll(s: State): map<nat, Conn> {
    map g | g in s.entries :: if g in s.agents.Values then Fenced(s.entries[g]) else s.entries[g]
  }

  predicate IsCurrent(s: State, node: NodeId, gen: nat) {
    !s.closed && node in s.agents && s.agents[node] == gen && gen in s.entries && !s.entries[gen].fenced
  }

  function CurrentGeneration(s: State, node: NodeId): nat {
    if s.closed || node !in s.agents || s.agents[node] !in s.entries || s.entries[s.agents[node]].fenced then 0
    else s.agents[node]
  }

  predicate HandshakeReady(s: State, node: NodeId, now: int) {
    CurrentGeneration(s, node) != 0
    && (s.entries[s.agents[node]].handshakeDone || now > s.entries[s.agents[node]].deadline)
  }

  function Entered(s: State, node: NodeId, deadline: int): State {
    var gen := s.nextGen + 1;
    var entries := if node in s.agents && s.agents[node] in s.entries
                   then s.entries[s.agents[node] := Fenced(s.entries[s.agents[node]])] else s.entries;
    s.(nextGen := gen, entries := entries[gen := Conn(node, false, false, deadline)],
       agents := s.agents[node := gen], entering := s.entering + {gen})
  }

  /** A queued registration takes the map entry unless a newer generation holds it. */
  predicate Takes(s: State, gen: nat) {
    !s.closed && gen in s.entries
    && (s.entries[gen].node in s.agents ==> s.agents[s.entries[gen].node] <= gen)
  }

  function Step(s: State, e: Event): State {
    match e
    case RegisterEnter(node, deadline) => if s.closed then s else Entered(s, node, deadline)
    case RegisterQueue(gen) =>
      if gen in s.entering then s.(entering := s.entering - {gen}, registerQueue := s.registerQueue + [gen]) else s
    case RegisterUndo(gen) =>
      if gen !in s.entering || !s.closed || gen !in s.entries then s
      else
        var node := s.entries[gen].node;
        s.(entering := s.entering - {gen},
           agents := if node in s.agents && s.agents[node] == gen then s.agents - {node} else s.agents)
    case LoopRegister =>
      if s.stopped || s.registerQueue == [] then s
      else
        var gen := s.registerQueue[0];
        s.(registerQueue := s.registerQueue[1..],
           agents := if Takes(s, gen) then s.agents[s.entries[gen].node := gen] else s.agents)
    case RequestUnregister(node, gen) =>
      if gen == 0 then s else s.(unregisterQueue := s.unregisterQueue + [(node, gen)])
    case LoopUnregister =>
      if s.stopped || s.unregisterQueue == [] then s
      else
        var (node, gen) := s.unregisterQueue[0];
        s.(unregisterQueue := s.unregisterQueue[1..],
           agents := if node in s.agents && s.agents[node] == gen then s.agents - {node} else s.agents)
    case CloseEnter => if s.closing then s else s.(closing := true, entries := FenceAll(s), agents := map[])
    case CloseSignal => if s.closing then s.(closed := true) else s
    case LoopShutdown =>
      if s.closed && !s.stopped then s.(entries := FenceAll(s), agents := map[], stopped := true) else s
    case HandshakeDone(node, gen) =>
      if IsCurrent(s, node, gen) then s.(entries := s.entries[gen := s.entries[gen].(handshakeDone := true)]) else s
    case Write(node) => if CurrentGeneration(s, node) == 0 then s else s.(writes := s.writes + [s.agents[node]])
  }

  // ---------------------------------------------------------------- the hub as an object

  class ConnectionHub {
    var entries: map<nat, Conn>
    var agents: map<NodeId, nat>
    var nextGen: nat
    var entering: set<nat>
    var registerQueue: seq<nat>
    var unregisterQueue: seq<(NodeId, nat)>
    var closing: bool
    var closed: bool
    var stopped: bool
    var writes: seq<nat>

    function View(): State
      reads this
    {
      State(entries, agents, nextGen, entering, registerQueue, unregisterQueue, closing, closed, stopped, writes)
    }

    constructor ()
      ensures View() == INITIAL
    {
      entries, agents, nextGen, entering := map[], map[], 0, {};
      registerQueue, unregisterQueue, closing, closed, stopped, writes := [], [], false, false, false, [];
    }

    /** The critical section of Register: fence the connection being replaced and swap in the new one. */
    method EnterRegistration(node: NodeId, deadline: int) returns (gen: nat)
      modifies this
      ensures View() == Step(old(View()), RegisterEnter(node, deadline))
      ensures gen == if old(closed) then 0 else nextGen
    {
      if closed {
        return 0;
      }
      nextGen := nextGen + 1;
      gen := nextGen;
      if node in agents && agents[node] in entries {
        var replaced := agents[node];
        entries := entries[replaced := entries[replaced].(fenced := true)];
      }
      entries := entries[gen := Conn(node, false, false, deadline)];
      agents := agents[node := gen];
      entering := entering + {gen};
    }

    /** The rest of Register: queue the registration, or undo it when the hub has closed meanwhile. */
    method LeaveRegistration(gen: nat, queued: bool) returns (result: nat)
      requires gen in entering && gen in entries && (!queued ==> closed)
      modifies this
      ensures View() == Step(old(View()), if queued then RegisterQueue(gen) else RegisterUndo(gen))
      ensures result == if queued then gen else 0
    {
      entering := entering - {gen};
      if queued {
        registerQueue := registerQueue + [gen];
        return gen;
      }
      var node := entries[gen].node;
      if node in agents && agents[node] == gen {
        agents := agents - {node};
      }
      return 0;
    }

    method RunRegister()
      modifies this
      ensures View() == Step(old(View()), LoopRegister)
    {
      if stopped || |registerQueue| == 0 {
        return;
      }
      var gen := registerQueue[0];
      registerQueue := registerQueue[1..];
      if closed || gen !in entries {
        return;
      }
      var node := entries[gen].node;
      if node !in agents || agents[node] <= gen {
        agents := agents[node := gen];
      }
    }

    method UnregisterGeneration(node: NodeId, gen: nat)
      modifies this
      ensures View() == Step(old(View()), RequestUnregister(node, gen))
    {
      if gen == 0 {
        return;
      }
      unregisterQueue := unregisterQueue + [(node, gen)];
    }

    method RunUnregister()
      modifies this
      ensures View() == Step(old(View()), LoopUnregister)
    {
      if stopped || |unregisterQueue| == 0 {
        return;
      }
      var (node, gen) := unregisterQueue[0];
      unregisterQueue := unregisterQueue[1..];
      if node in agents && agents[node] == gen {
        agents := agents - {node};
      }
    }

    method FenceAgents()
      modifies this`entries
      ensures entries == FenceAll(old(View()))
    {
      var left := agents.Keys;
      while left != {}
        invariant left <= agents.Keys && entries.Keys == old(entries).Keys
        invariant forall g :: g in entries ==>
          entries[g] == (if exists n :: n in agents && n !in left && agents[n] == g
                         then Fenced(old(entries)[g]) else entries[g])
        invariant forall g :: g in entries ==> entries[g] == old(entries)[g] || entries[g] == Fenced(old(entries)[g])
        invariant forall g :: g in entries && entries[g] != old(entries)[g] ==> g in agents.Values
        decreases left
      {
        var n :| n in left;
        if agents[n] in entries {
          entries := entries[agents[n] := entries[agents[n]].(fenced := true)];
        }
        left := left - {n};
      }
      forall g | g in entries
        ensures entries[g] == FenceAll(old(View()))[g]
      {
        if g in agents.Values {
          var n :| n in agents && agents[n] == g;
          assert n !in left;
        }
      }
    }

    /** The critical section of Close. */
    method EnterClose()
      modifies this
      ensures View() == Step(old(View()), CloseEnter)
    {
      if closing {
        return;
      }
      closing := true;
      FenceAgents();
      agents := map[];
    }

    method SignalClose()
      modifies this`closed
      ensures View() == Step(old(View()), CloseSignal)
    {
      if closing {
        closed := true;
      }
    }

    method RunShutdown()
      modifies this
      ensures View() == Step(old(View()), LoopShutdown)
    {
      if !closed || stopped {
        return;
      }
      FenceAgents();
      agents := map[];
      stopped := true;
    }

    method CompleteHandshake(node: NodeId, gen: nat) returns (ok: bool)
      modifies this`entries
      ensures ok <==> IsCurrent(old(View()), node, gen)
      ensures View() == Step(old(View()), HandshakeDone(node, gen))
    {
      if closed || node !in agents || agents[node] != gen || gen !in entries || entries[gen].fenced {
        return false;
      }
      entries := entries[gen := entries[gen].(handshakeDone := true)];
      return true;
    }

    method SendToAgent(node: NodeId) returns (sent: bool)
      requires Valid(View())
      modifies this`writes
      ensures sent <==> CurrentGeneration(old(View()), node) != 0
      ensures View() == Step(old(View()), Write(node))
    {
      if closed || node !in agents || agents[node] !in entries || entries[agents[node]].fenced {
        return false;
      }
      writes := writes + [agents[node]];
      return true;
    }
  }

  // ---------------------------------------------------------------- runs

  function Run(s: State, es: seq<Event>): State
    decreases |es|
  {
    if es == [] then s else Step(Run(s, es[..|es| - 1]), es[|es| - 1])
  }

  ghost predicate Valid(s: State) {
    && (forall g :: g in s.entries ==> 0 < g <= s.nextGen)
    && (forall n :: n in s.agents ==> s.agents[n] in s.entries && s.entries[s.agents[n]].node == n)
    && (forall g :: g in s.entering || g in s.registerQueue ==> g in s.entries)
    && (s.closed ==> s.closing) && (s.stopped ==> s.closed && s.agents == map[])
  }

  lemma StepValid(s: State, e: Event)
    requires Valid(s)
    ensures Valid(Step(s, e))
  {
    if e.LoopRegister? && s.registerQueue != [] {
      assert s.registerQueue[0] in s.registerQueue;
    }
  }

  lemma {:induction false} RunValid(es: seq<Event>)
    ensures Valid(Run(INITIAL, es))
    decreases |es|
  {
    if es != [] {
      RunValid(es[..|es| - 1]);
      StepValid(Run(INITIAL, es[..|es| - 1]), es[|es| - 1]);
    }
  }

  // ---------------------------------------------------------------- fencing

  predicate FencedGen(s: State, gen: nat) {
    gen in s.entries && s.entries[gen].fenced
  }

  lemma StepKeepsFence(s: State, e: Event, gen: nat)
    requires Valid(s) && FencedGen(s, gen)
    ensures FencedGen(Step(s, e), gen)
    ensures Step(s, e).writes == s.writes
            || (exists g :: g != gen && Step(s, e).writes == s.writes + [g])
  {
  }

  /** Once fenced, a generation is never again reported current or ready, and never written to, in whatever
      order registrations, queued messages, unregistrations and Close interleave. */
  lemma {:induction false} FencedForever(s: State, es: seq<Event>, gen: nat)
    requires Valid(s) && FencedGen(s, gen)
    ensures var s' := Run(s, es);
      && Valid(s') && FencedGen(s', gen)
      && (forall n :: !IsCurrent(s', n, gen) && CurrentGeneration(s', n) != gen)
      && s.writes <= s'.writes && forall i :: |s.writes| <= i < |s'.writes| ==> s'.writes[i] != gen
    decreases |es|
  {
    if es != [] {
      var mid := Run(s, es[..|es| - 1]);
      FencedForever(s, es[..|es| - 1], gen);
      StepKeepsFence(mid, es[|es| - 1], gen);
      StepValid(mid, es[|es| - 1]);
    }
  }

  /** Replacing a connection fences the one that was current, in the same step in which the new one takes over. */
  lemma RegisterReplaces(s: State, node: NodeId, deadline: int)
    requires Valid(s) && !s.closed
    ensures var s' := Step(s, RegisterEnter(node, deadline));
      && IsCurrent(s', node, s'.nextGen) && s'.nextGen == s.nextGen + 1 && s'.nextGen !in s.entries
      && (CurrentGeneration(s, node) != 0 ==> FencedGen(s', CurrentGeneration(s, node)))
      && forall other :: other != node ==> CurrentGeneration(s', other) == CurrentGeneration(s, other)
  {
  }

  /** A connection counts as handshaken only by its own handshake, completed while it was current. */
  lemma HandshakenByItself(s: State, e: Event, gen: nat)
    requires Valid(s) && gen in Step(s, e).entries && Step(s, e).entries[gen].handshakeDone
    requires gen in s.entries ==> !s.entries[gen].handshakeDone
    ensures e.HandshakeDone? && e.gen == gen && IsCurrent(s, e.node, gen)
  {
  }

  /** So in every run, a connection marked handshaken completed its own handshake at some earlier step at
      which it was current and not fenced. */
  lemma {:induction false} HandshakenOnce(es: seq<Event>, gen: nat) returns (i: nat)
    requires gen in Run(INITIAL, es).entries && Run(INITIAL, es).entries[gen].handshakeDone
    ensures i < |es| && es[i].HandshakeDone? && es[i].gen == gen
    ensures IsCurrent(Run(INITIAL, es[..i]), es[i].node, gen)
    decreases |es|
  {
    assert es != [];
    var before := es[..|es| - 1];
    RunValid(before);
    if gen in Run(INITIAL, before).entries && Run(INITIAL, before).entries[gen].handshakeDone {
      i := HandshakenOnce(before, gen);
      assert before[..i] == es[..i];
    } else {
      i := |es| - 1;
      HandshakenByItself(Run(INITIAL, before), es[i], gen);
    }
  }

  // ---------------------------------------------------------------- what comes back

  /** A generation becomes current exactly by its registration, or when its queued message is taken while no
      newer generation holds the map entry. */
  lemma BecomesCurrent(s: State, e: Event, node: NodeId, gen: nat)
    requires Valid(s) && !IsCurrent(s, node, gen)
    ensures IsCurrent(Step(s, e), node, gen) <==>
      (e.RegisterEnter? && !s.closed && e.node == node && gen == s.nextGen + 1)
      || (e.LoopRegister? && !s.stopped && s.registerQueue != [] && s.registerQueue[0] == gen
          && Takes(s, gen) && s.entries[gen].node == node && !s.entries[gen].fenced)
  {
    if e.LoopRegister? && s.registerQueue != [] {
      assert s.registerQueue[0] in s.registerQueue;
    }
  }

  predicate InMap(s: State, gen: nat) {
    gen in s.entries && s.entries[gen].node in s.agents && s.agents[s.entries[gen].node] == gen
  }

  /** A generation whose message was consumed and that left the map never returns. */
  lemma {:induction false} GoneForGood(s: State, es: seq<Event>, gen: nat)
    requires Valid(s) && gen in s.entries && !InMap(s, gen) && gen !in s.entering && gen !in s.registerQueue
    ensures var s' := Run(s, es);
      Valid(s') && gen in s'.entries && s'.entries[gen].node == s.entries[gen].node
      && !InMap(s', gen) && gen !in s'.entering && gen !in s'.registerQueue
    decreases |es|
  {
    if es != [] {
      var mid := Run(s, es[..|es| - 1]);
      GoneForGood(s, es[..|es| - 1], gen);
      StepValid(mid, es[|es| - 1]);
      GoneStep(mid, es[|es| - 1], gen);
    }
  }

  lemma GoneStep(s: State, e: Event, gen: nat)
    requires Valid(s) && gen in s.entries && !InMap(s, gen) && gen !in s.entering && gen !in s.registerQueue
    ensures var s' := Step(s, e);
      gen in s'.entries && s'.entries[gen].node == s.entries[gen].node
      && !InMap(s', gen) && gen !in s'.entering && gen !in s'.registerQueue
  {
    if e.LoopRegister? && s.registerQueue != [] {
      assert s.registerQueue[0] in s.registerQueue;
    }
  }

  /** The message still queued matters: an unregistered connection is reported current again when the loop
      takes its unregistration before its registration. */
  lemma LateMessageRevives(node: NodeId, deadline: int) returns (es: seq<Event>)
    ensures var s := Run(INITIAL, es);
      !IsCurrent(s, node, 1) && s.unregisterQueue == [] && IsCurrent(Step(s, LoopRegister), node, 1)
  {
    es := [RegisterEnter(node, deadline), RegisterQueue(1), RequestUnregister(node, 1), LoopUnregister];
    var s1 := State(
      map[1 := Conn(node, false, false, deadline)], map[node := 1], 1, {1}, [], [], false, false, false, []);
    var s2 := s1.(entering := {}, registerQueue := [1]);
    var s3 := s2.(unregisterQueue := [(node, 1)]);
    var s4 := s3.(unregisterQueue := [], agents := map[]);
    assert Run(INITIAL, es[..0]) == INITIAL;
    assert es[..1][..0] == es[..0] && Run(INITIAL, es[..1]) == s1;
    assert es[..2][..1] == es[..1] && Run(INITIAL, es[..2]) == s2;
    assert es[..3][..2] == es[..2] && Run(INITIAL, es[..3]) == s3;
    assert es[..4][..3] == es[..3] && es[..4] == es;
    assert Run(INITIAL, es) == s4;
  }

  // ---------------------------------------------------------------- the map, step by step

  /** The current generation is the one in the map, unless fenced, and none on a closed hub. */
  lemma CurrentExactly(s: State, node: NodeId, gen: nat)
    requires Valid(s) && gen > 0
    ensures CurrentGeneration(s, node) == gen <==> IsCurrent(s, node, gen)
    ensures IsCurrent(s, node, gen) <==>
      !s.closed && node in s.agents && s.agents[node] == gen && !s.entries[gen].fenced
  {
  }

  /** A node is ready exactly if its current connection has completed its handshake or had its time for it. */
  lemma ReadyExactly(s: State, node: NodeId, now: int)
    requires Valid(s)
    ensures HandshakeReady(s, node, now) <==>
      && node in s.agents && IsCurrent(s, node, s.agents[node])
      && (s.entries[s.agents[node]].handshakeDone || s.entries[s.agents[node]].deadline < now)
  {
  }

  /** A node leaves the map exactly by the unregistration of the generation it has there, by the undoing of that
      registration on a closed hub, by the close, and by the shutdown of the loop. */
  lemma LeavesMapExactly(s: State, e: Event, node: NodeId)
    requires Valid(s) && node in s.agents
    ensures node !in Step(s, e).agents <==>
      || (e.LoopUnregister? && !s.stopped && s.unregisterQueue != [] && s.unregisterQueue[0] == (node, s.agents[node]))
      || (e.RegisterUndo? && s.closed && e.gen in s.entering && e.gen == s.agents[node])
      || (e.CloseEnter? && !s.closing)
      || (e.LoopShutdown? && s.closed && !s.stopped)
  {
  }

  /** A generation takes a place in the map exactly by registering, or when its queued message is taken and no newer
      one has the place. */
  lemma TakesMapExactly(s: State, e: Event, node: NodeId, gen: nat)
    requires Valid(s) && !(node in s.agents && s.agents[node] == gen)
    ensures node in Step(s, e).agents && Step(s, e).agents[node] == gen <==>
      || (e.RegisterEnter? && !s.closed && e.node == node && gen == s.nextGen + 1)
      || (e.LoopRegister? && !s.stopped && !s.closed && s.registerQueue != [] && s.registerQueue[0] == gen
          && gen in s.entries && s.entries[gen].node == node && (node in s.agents ==> s.agents[node] <= gen))
  {
  }

  /** A connection is fenced exactly when another one of its node replaces it, or by the close or the shutdown while
      it is in the map. */
  lemma FencedExactly(s: State, e: Event, gen: nat)
    requires Valid(s) && gen in s.entries && !s.entries[gen].fenced
    ensures FencedGen(Step(s, e), gen) <==>
      InMap(s, gen)
      && ((e.RegisterEnter? && !s.closed && e.node == s.entries[gen].node)
          || (e.CloseEnter? && !s.closing) || (e.LoopShutdown? && s.closed && !s.stopped))
  {
    if gen in s.agents.Values {
      var n :| n in s.agents && s.agents[n] == gen;
      assert s.entries[gen].node == n;
    }
  }

  /** Completing the handshake of the current connection makes its node ready. */
  lemma HandshakeReadies(s: State, node: NodeId, gen: nat, now: int)
    requires Valid(s) && IsCurrent(s, node, gen)
    ensures HandshakeReady(Step(s, HandshakeDone(node, gen)), node, now)
    ensures IsCurrent(Step(s, HandshakeDone(node, gen)), node, gen)
  {
  }

  /** Messages are queued at the end and taken from the front; a message to an agent goes to its current generation. */
  lemma QueuesExactly(s: State, e: Event)
    requires Valid(s)
    ensures var s' := Step(s, e);
      && s'.registerQueue == (if e.RegisterQueue? && e.gen in s.entering then s.registerQueue + [e.gen]
                              else if e.LoopRegister? && !s.stopped && s.registerQueue != [] then s.registerQueue[1..]
                              else s.registerQueue)
      && s'.unregisterQueue == (if e.RequestUnregister? && e.gen != 0 then s.unregisterQueue + [(e.node, e.gen)]
                                else if e.LoopUnregister? && !s.stopped && s.unregisterQueue != []
                                then s.unregisterQueue[1..] else s.unregisterQueue)
      && (forall g :: s'.writes == s.writes + [g] <==>
            e.Write? && e.node in s.agents && s.agents[e.node] == g && IsCurrent(s, e.node, g))
      && s'.entering == (if e.RegisterEnter? && !s.closed then s.entering + {s.nextGen + 1}
                         else if e.RegisterQueue? || (e.RegisterUndo? && s.closed) then s.entering - {e.gen}
                         else s.entering)
      && (s'.closing <==> s.closing || e.CloseEnter?) && (s'.closed <==> s.closed || (e.CloseSignal? && s.closing))
      && (s'.stopped <==> s.stopped || (e.LoopShutdown? && s.closed))
  {
    assert forall g: nat :: |s.writes + [g]| == |s.writes| + 1;
    assert forall g: nat :: (s.writes + [g])[|s.writes|] == g;
  }

  // ---------------------------------------------------------------- shutdown

  /** Once Close has signalled and the loop has shut down, the map is empty and stays empty, every generation
      is reported offline, and nothing is written any more, whatever was still under way. */
  lemma {:induction false} ShutdownEmpties(es: seq<Event>, more: seq<Event>)
    requires Run(INITIAL, es).stopped
    ensures var s := Run(Run(INITIAL, es), more);
      && s.stopped && s.closed && s.agents == map[] && s.writes == Run(INITIAL, es).writes
      && forall n :: CurrentGeneration(s, n) == 0
    decreases |more|
  {
    RunValid(es);
    if more != [] {
      ShutdownEmpties(es, more[..|more| - 1]);
      StoppedStep(Run(Run(INITIAL, es), more[..|more| - 1]), more[|more| - 1]);
    }
  }

  lemma StoppedStep(s: State, e: Event)
    requires s.stopped && s.closed && s.agents == map[]
    ensures var s' := Step(s, e);
      s'.stopped && s'.closed && s'.agents == map[] && s'.writes == s.writes
  {
  }

  /** From the close signal on, no generation is reported current. */
  lemma ClosedReportsNothing(s: State, node: NodeId, gen: nat, now: int)
    requires s.closed
    ensures !IsCurrent(s, node, gen) && CurrentGeneration(s, node) == 0 && !HandshakeReady(s, node, now)
  {
  }
}
