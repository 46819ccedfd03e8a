/**
 Alert and recovery notifications: per node and metric, the delivery tables
 decide which triggered samples are sent, and when a run of quiet samples ends
 the episode.
 */
module AlertEpisodes {
  import opened Basics
  import opened Protocol

  datatype Severity = Warning | Critical

  datatype Metric = CPU | Memory | Disk

  /** The rows of one node and metric: alert deliveries by severity, the last recovery, the quiet streak. */
  datatype Tables = Tables(alerts: map<Severity, int>, recoveryAt: Option<int>, streak: Option<nat>)

  datatype Config = Config(cooldown: int, samples: int, recoveryCooldown: int)

  /** What a metric's value amounts to. */
  datatype Sample = Triggered(severity: Severity) | Quiet

  datatype Sending = NothingSent | AlertSent | RecoverySent | NotDelivered

  function Classify(value: real, warning: real, critical: real): Sample {
    if critical > 0.0 && value >= critical then Triggered(Critical)
    else if warning > 0.0 && value >= warning then Triggered(Warning)
    else Quiet
  }

  predicate Active(t: Tables) {
    t.alerts != map[]
  }

  function LatestOf(alerts: map<Severity, int>): int {
    if Critical in alerts && Warning in alerts then Max(alerts[Critical], alerts[Warning])
    else if Critical in alerts then alerts[Critical]
    else if Warning in alerts then alerts[Warning]
    else 0
  }

  predicate ShouldSendAlert(t: Tables, cooldown: int, at: int) {
    cooldown <= 0 || LatestOf(t.alerts) == 0 || at - LatestOf(t.alerts) >= cooldown
  }

  predicate ShouldSendRecovery(t: Tables, cooldown: int, at: int) {
    cooldown <= 0 || t.recoveryAt.None? || t.recoveryAt.value == 0 || at - t.recoveryAt.value >= cooldown
  }

  function Count(t: Tables): nat {
    if t.streak.Some? then t.streak.value + 1 else 1
  }

  function Ended(t: Tables): Tables {
    t.(alerts := map[], streak := None)
  }

  /** The tables after one sample; a failed send stops before anything is recorded for it. */
  function React(t: Tables, sample: Sample, c: Config, at: int, sends: bool): (Tables, Sending) {
    match sample
    case Triggered(severity) =>
      if !ShouldSendAlert(t, c.cooldown, at) then (t, NothingSent)
      else if !sends then (t, NotDelivered)
      else (t.(alerts := t.alerts[severity := at], streak := None), AlertSent)
    case Quiet =>
      if !Active(t) then (t.(streak := None), NothingSent)
      else
        var t1 := t.(streak := Some(Count(t)));
        if Count(t) < c.samples then (t1, NothingSent)
        else if !ShouldSendRecovery(t, c.recoveryCooldown, at) then (Ended(t), NothingSent)
        else if !sends then (t1, NotDelivered)
        else (Ended(t).(recoveryAt := Some(at)), RecoverySent)
  }

  // ---------------------------------------------------------------- the evaluator as an object

  datatype Reading = Reading(metric: Metric, value: real, warning: real, critical: real)

  datatype MetricEvent = MetricEvent(metric: Metric, sample: Sample)

  function EventOf(r: Reading): MetricEvent {
    MetricEvent(r.metric, Classify(r.value, r.warning, r.critical))
  }

  function Filter(readings: seq<Reading>, triggered: bool): seq<MetricEvent>
    decreases |readings|
  {
    if readings == [] then []
    else
      var n := |readings| - 1;
      var e := EventOf(readings[n]);
      Filter(readings[..n], triggered) + (if e.sample.Triggered? == triggered then [e] else [])
  }

  /** Alerts come before recoveries. */
  function EventsOf(readings: seq<Reading>): seq<MetricEvent> {
    Filter(readings, true) + Filter(readings, false)
  }

  type AllTables = map<(NodeId, Metric), Tables>

  function TablesOf(all: AllTables, node: NodeId, metric: Metric): Tables {
    if (node, metric) in all then all[(node, metric)] else Tables(map[], None, None)
  }

  datatype Sent = Alerted(at: int) | Recovered(at: int)

  /** A notification that went out. */
  datatype Notice = Notice(node: NodeId, metric: Metric, sent: Sent)

  function NoticeOf(node: NodeId, metric: Metric, sending: Sending, at: int): seq<Notice> {
    match sending
    case AlertSent => [Notice(node, metric, Alerted(at))]
    case RecoverySent => [Notice(node, metric, Recovered(at))]
    case _ => []
  }

  datatype Handling = Handling(tables: AllTables, sent: seq<Notice>, ok: bool)

  /** The tables after the first events in order, what was sent, and whether all of them went through. */
  function HandleAll(all: AllTables, node: NodeId, events: seq<MetricEvent>, c: Config, at: int,
                     failing: set<nat>): Handling
    decreases |events|
  {
    if events == [] then Handling(all, [], true)
    else
      var n := |events| - 1;
      var before := HandleAll(all, node, events[..n], c, at, failing);
      if !before.ok then before
      else
        var metric := events[n].metric;
        var r := React(TablesOf(before.tables, node, metric), events[n].sample, c, at, n !in failing);
        Handling(before.tables[(node, metric) := r.0], before.sent + NoticeOf(node, metric, r.1, at),
                 r.1 != NotDelivered)
  }

  /** The settings that decide whether a node's reports are looked at. */
  datatype Settings = Settings(
    enabled: bool, telegram: bool, recipients: nat, scopeMode: string, scopeNodes: seq<NodeId>,
    enabledNodes: seq<NodeId>, config: Config)

  predicate InScope(s: Settings, node: NodeId) {
    if s.scopeMode == "" then s.enabledNodes == [] || node in s.enabledNodes
    else if s.scopeNodes == [] then true
    else if s.scopeMode == "include" then node in s.scopeNodes
    else if s.scopeMode == "exclude" then node !in s.scopeNodes
    else true
  }

  predicate Notifies(s: Settings, node: NodeId) {
    s.enabled && s.telegram && s.recipients > 0 && InScope(s, node)
  }

  class Evaluator {
    var tables: AllTables

    constructor ()
      ensures tables == map[]
    {
      tables := map[];
    }

    method ProcessAlert(node: NodeId, metric: Metric, severity: Severity, c: Config, at: int, sends: bool)
      returns (sent: seq<Notice>, ok: bool)
      modifies this
      ensures var r := React(TablesOf(old(tables), node, metric), Triggered(severity), c, at, sends);
        && tables == old(tables)[(node, metric) := r.0]
        && sent == NoticeOf(node, metric, r.1, at) && ok == (r.1 != NotDelivered)
    {
      var t := TablesOf(tables, node, metric);
      sent, ok := [], true;
      if ShouldSendAlert(t, c.cooldown, at) {
        if sends {
          sent := [Notice(node, metric, Alerted(at))];
          t := t.(alerts := t.alerts[severity := at]);
          t := t.(streak := None);
        } else {
          ok := false;
        }
      }
      tables := tables[(node, metric) := t];
    }

    method ProcessRecovery(node: NodeId, metric: Metric, c: Config, at: int, sends: bool)
      returns (sent: seq<Notice>, ok: bool)
      modifies this
      ensures var r := React(TablesOf(old(tables), node, metric), Quiet, c, at, sends);
        && tables == old(tables)[(node, metric) := r.0]
        && sent == NoticeOf(node, metric, r.1, at) && ok == (r.1 != NotDelivered)
    {
      var t := TablesOf(tables, node, metric);
      sent, ok := [], true;
      if !Active(t) {
        t := t.(streak := None);
      } else {
        var allowed := ShouldSendRecovery(t, c.recoveryCooldown, at);
        t := t.(streak := Some(Count(t)));
        if t.streak.value >= c.samples {
          if !allowed {
            t := t.(alerts := map[]);
            t := t.(streak := None);
          } else if !sends {
            ok := false;
          } else {
            sent := [Notice(node, metric, Recovered(at))];
            t := t.(recoveryAt := Some(at));
            t := t.(alerts := map[]);
            t := t.(streak := None);
          }
        }
      }
      tables := tables[(node, metric) := t];
    }

    /** Split the readings into alerts and recoveries. */
    method BuildEvents(readings: seq<Reading>) returns (alerts: seq<MetricEvent>, recoveries: seq<MetricEvent>)
      ensures alerts == Filter(readings, true) && recoveries == Filter(readings, false)
    {
      alerts, recoveries := [], [];
      for i := 0 to |readings|
        invariant alerts == Filter(readings[..i], true) && recoveries == Filter(readings[..i], false)
      {
        assert readings[..i + 1][..i] == readings[..i];
        var e := EventOf(readings[i]);
        if e.sample.Triggered? {
          alerts := alerts + [e];
          continue;
        }
        recoveries := recoveries + [e];
      }
      assert readings[..|readings|] == readings;
    }

    method ProcessEvent(node: NodeId, e: MetricEvent, c: Config, at: int, sends: bool)
      returns (sent: seq<Notice>, ok: bool)
      modifies this
      ensures var r := React(TablesOf(old(tables), node, e.metric), e.sample, c, at, sends);
        && tables == old(tables)[(node, e.metric) := r.0]
        && sent == NoticeOf(node, e.metric, r.1, at) && ok == (r.1 != NotDelivered)
    {
      if e.sample.Triggered? {
        sent, ok := ProcessAlert(node, e.metric, e.sample.severity, c, at, sends);
      } else {
        sent, ok := ProcessRecovery(node, e.metric, c, at, sends);
      }
    }

    /** Handle the events of one report in order, if the settings ask for them; the first failed send ends it. */
    method Process(node: NodeId, readings: seq<Reading>, settings: Settings, at: int, failing: set<nat>)
      returns (sent: seq<Notice>, ok: bool)
      modifies this
      ensures Handling(tables, sent, ok) ==
              Handled(old(tables), Report(node, readings, settings, at, failing))
    {
      if !settings.enabled || !settings.telegram || settings.recipients == 0 {
        return [], true;
      }
      if !InScope(settings, node) {
        return [], true;
      }
      var alerts, recoveries := BuildEvents(readings);
      var events := alerts + recoveries;
      sent := [];
      for i := 0 to |events|
        invariant Handling(tables, sent, true) ==
                  HandleAll(old(tables), node, events[..i], settings.config, at, failing)
      {
        HandleNext(old(tables), node, events, settings.config, at, failing, i);
        var notice;
        notice, ok := ProcessEvent(node, events[i], settings.config, at, i !in failing);
        sent := sent + notice;
        if !ok {
          HandleFailed(old(tables), node, events, settings.config, at, failing, i + 1);
          return sent, false;
        }
      }
      assert events[..|events|] == events;
      return sent, true;
    }
  }

  /** One report: a node's readings, with the settings of the moment and the sends that will fail. */
  datatype Report = Report(node: NodeId, readings: seq<Reading>, settings: Settings, at: int, failing: set<nat>)

  function Handled(all: AllTables, report: Report): Handling {
    if !Notifies(report.settings, report.node) then Handling(all, [], true)
    else HandleAll(all, report.node, EventsOf(report.readings), report.settings.config, report.at, report.failing)
  }

  lemma HandleNext(all: AllTables, node: NodeId, events: seq<MetricEvent>, c: Config, at: int,
                   failing: set<nat>, i: nat)
    requires i < |events| && HandleAll(all, node, events[..i], c, at, failing).ok
    ensures var before := HandleAll(all, node, events[..i], c, at, failing);
      var metric := events[i].metric;
      var r := React(TablesOf(before.tables, node, metric), events[i].sample, c, at, i !in failing);
      HandleAll(all, node, events[..i + 1], c, at, failing)
      == Handling(before.tables[(node, metric) := r.0], before.sent + NoticeOf(node, metric, r.1, at),
                  r.1 != NotDelivered)
  {
    assert events[..i + 1][..i] == events[..i];
  }

  lemma {:induction false} HandleFailed(all: AllTables, node: NodeId, events: seq<MetricEvent>, c: Config, at: int,
                                        failing: set<nat>, n: nat)
    requires n <= |events| && !HandleAll(all, node, events[..n], c, at, failing).ok
    ensures HandleAll(all, node, events, c, at, failing) == HandleAll(all, node, events[..n], c, at, failing)
    decreases |events|
  {
    if n < |events| {
      assert events[..|events| - 1][..n] == events[..n];
      HandleFailed(all, node, events[..|events| - 1], c, at, failing, n);
    } else {
      assert events[..n] == events;
    }
  }

  /** A reading is critical exactly from a positive critical threshold on, and otherwise a warning exactly from a
      positive warning threshold on. */
  lemma GravityExactly(r: Reading)
    ensures EventOf(r).metric == r.metric
    ensures EventOf(r).sample == Triggered(Critical) <==> 0.0 < r.critical <= r.value
    ensures EventOf(r).sample == Triggered(Warning) <==> 0.0 < r.warning <= r.value && !(0.0 < r.critical <= r.value)
  {
  }

  predicate OfKind(r: Reading, triggered: bool) {
    EventOf(r).sample.Triggered? == triggered
  }

  /** The places of the readings of one kind, in order. */
  function Picks(readings: seq<Reading>, triggered: bool, n: nat): (picks: seq<nat>)
    requires n <= |readings|
    ensures forall k: nat :: k in picks <==> k < n && OfKind(readings[k], triggered)
    ensures forall i, k :: 0 <= i < k < |picks| ==> picks[i] < picks[k]
  {
    if n == 0 then []
    else
      var before := Picks(readings, triggered, n - 1);
      assert forall k :: 0 <= k < |before| ==> before[k] in before;
      before + if OfKind(readings[n - 1], triggered) then [n - 1] else []
  }

  /** The listed events are those of the readings of one kind, each once and in the order of the readings. */
  lemma {:induction false} FilterPicks(readings: seq<Reading>, triggered: bool, n: nat)
    requires n <= |readings|
    ensures var picks, events := Picks(readings, triggered, n), Filter(readings[..n], triggered);
      |events| == |picks|
      && forall k :: 0 <= k < |picks| ==> picks[k] in picks && events[k] == EventOf(readings[picks[k]])
  {
    if n > 0 {
      assert readings[..n][..n - 1] == readings[..n - 1];
      FilterPicks(readings, triggered, n - 1);
    }
  }

  /** A report has one event for every reading, and the alerts among them come first. */
  lemma AlertsFirst(readings: seq<Reading>)
    ensures |EventsOf(readings)| == |readings|
    ensures forall r :: r in readings ==> EventOf(r) in EventsOf(readings)
    ensures forall i, k :: 0 <= i < k < |EventsOf(readings)| && EventsOf(readings)[k].sample.Triggered? ==>
      EventsOf(readings)[i].sample.Triggered?
  {
    var alerts, quiet := Filter(readings, true), Filter(readings, false);
    FiltersSplit(readings);
    assert forall e :: e in alerts || e in quiet ==> e in alerts + quiet;
    FilterKind(readings, true);
    FilterKind(readings, false);
  }

  lemma {:induction false} FiltersSplit(readings: seq<Reading>)
    ensures |Filter(readings, true)| + |Filter(readings, false)| == |readings|
    ensures forall r :: r in readings ==> EventOf(r) in Filter(readings, true) || EventOf(r) in Filter(readings, false)
    decreases |readings|
  {
    if readings != [] {
      var n := |readings| - 1;
      FiltersSplit(readings[..n]);
      assert forall r :: r in readings ==> r in readings[..n] || r == readings[n];
      assert EventOf(readings[n]) in Filter(readings, EventOf(readings[n]).sample.Triggered?);
    }
  }

  lemma {:induction false} FilterKind(readings: seq<Reading>, triggered: bool)
    ensures forall e :: e in Filter(readings, triggered) ==> e.sample.Triggered? == triggered
    decreases |readings|
  {
    if readings != [] {
      FilterKind(readings[..|readings| - 1], triggered);
    }
  }

  /** Nothing is evaluated while notifications are off or have no one to go to, or for a node out of scope. */
  lemma SettingsSilence(all: AllTables, report: Report)
    requires var s := report.settings;
      !s.enabled || !s.telegram || s.recipients == 0
      || (s.scopeMode == "" && s.enabledNodes != [] && report.node !in s.enabledNodes)
      || (s.scopeMode == "include" && s.scopeNodes != [] && report.node !in s.scopeNodes)
      || (s.scopeMode == "exclude" && report.node in s.scopeNodes)
    ensures Handled(all, report) == Handling(all, [], true)
  {
  }

  /** And otherwise every event of the report is handled, in order, as long as the sends succeed. */
  lemma SettingsSpeak(all: AllTables, report: Report)
    requires var s := report.settings;
      && s.enabled && s.telegram && s.recipients > 0
      && (s.scopeMode == "" ==> s.enabledNodes == [] || report.node in s.enabledNodes)
      && (s.scopeMode == "include" ==> s.scopeNodes == [] || report.node in s.scopeNodes)
      && (s.scopeMode == "exclude" ==> report.node !in s.scopeNodes)
    ensures Handled(all, report) ==
      HandleAll(all, report.node, EventsOf(report.readings), report.settings.config, report.at, report.failing)
    ensures report.failing == {} ==> Handled(all, report).ok
  {
    if report.failing == {} {
      NoneFails(all, report.node, EventsOf(report.readings), report.settings.config, report.at);
    }
  }

  lemma {:induction false} NoneFails(all: AllTables, node: NodeId, events: seq<MetricEvent>, c: Config, at: int)
    ensures HandleAll(all, node, events, c, at, {}).ok
    decreases |events|
  {
    if events != [] {
      NoneFails(all, node, events[..|events| - 1], c, at);
    }
  }

  // ---------------------------------------------------------------- episodes

  /** One sample of a node and metric, at a positive time, with the settings of that moment. */
  datatype Input = Input(sample: Sample, c: Config, at: int, sends: bool)

  /** The tables with their past: what was sent; the alerts of the current episode; the quiet samples since
      the last delivered alert; those since the last triggered sample; and the counted quiet samples from
      before the last triggered sample that was held back. */
  datatype Past = Past(t: Tables, sent: seq<Sent>, episode: seq<int>, quiet: nat, calm: nat, held: nat)

  function Next(p: Past, i: Input): Past {
    var r := React(p.t, i.sample, i.c, i.at, i.sends);
    var p1 := p.(t := r.0);
    if i.sample.Triggered? then
      if r.1 == AlertSent then
        p1.(sent := p.sent + [Alerted(i.at)], episode := p.episode + [i.at], quiet := 0, calm := 0, held := 0)
      else p1.(calm := 0, held := if p.t.streak.Some? then p.t.streak.value else 0)
    else
      p1.(sent := if r.1 == RecoverySent then p.sent + [Recovered(i.at)] else p.sent,
          episode := if Active(r.0) then p.episode else [],
          quiet := p.quiet + 1, calm := p.calm + 1, held := if r.0.streak.Some? then p.held else 0)
  }

  function Run(inputs: seq<Input>): Past
    decreases |inputs|
  {
    if inputs == [] then Past(Tables(map[], None, None), [], [], 0, 0, 0)
    else Next(Run(inputs[..|inputs| - 1]), inputs[|inputs| - 1])
  }

  ghost predicate Alternates(sent: seq<Sent>) {
    forall i, k :: 0 <= i < k < |sent| && sent[i].Recovered? && sent[k].Recovered?
      ==> exists j :: i < j < k && sent[j].Alerted?
  }

  /** A streak belongs to an active alert: it counts the quiet samples since the last triggered one, and
      those counted before a triggered sample was held back. An active alert is the last thing sent. */
  ghost predicate EpisodeOk(p: Past) {
    && Alternates(p.sent)
    && (p.t.streak.Some? ==> Active(p.t) && 1 <= p.t.streak.value <= p.quiet && p.t.streak.value == p.held + p.calm)
    && (p.t.streak.None? ==> p.held == 0 && (Active(p.t) ==> p.calm == 0))
    && (Active(p.t) ==> p.sent != [] && p.sent[|p.sent| - 1].Alerted? && p.episode != [])
    && (!Active(p.t) ==> p.episode == [])
  }

  lemma NextOk(p: Past, i: Input)
    requires EpisodeOk(p)
    ensures EpisodeOk(Next(p, i))
  {
    var p' := Next(p, i);
    if i.sample.Triggered? && React(p.t, i.sample, i.c, i.at, i.sends).1 == AlertSent {
      assert i.sample.severity in p'.t.alerts;
    }
    if |p'.sent| > |p.sent| {
      var n := |p.sent|;
      forall a, b | 0 <= a < b < |p'.sent| && p'.sent[a].Recovered? && p'.sent[b].Recovered?
        ensures exists j :: a < j < b && p'.sent[j].Alerted?
      {
        if b == n {
          assert p'.sent[n - 1].Alerted?;
        } else {
          assert p.sent[a].Recovered? && p.sent[b].Recovered?;
          var j :| a < j < b && p.sent[j].Alerted?;
          assert p'.sent[j].Alerted?;
        }
      }
    }
  }

  lemma {:induction false} RunOk(inputs: seq<Input>)
    ensures EpisodeOk(Run(inputs))
    decreases |inputs|
  {
    if inputs != [] {
      RunOk(inputs[..|inputs| - 1]);
      NextOk(Run(inputs[..|inputs| - 1]), inputs[|inputs| - 1]);
    }
  }

  /** Over every run with any settings, times and failed sends: between any two recoveries sent there is an
      alert sent, and a streak exists only while an alert is active. */
  lemma RecoveriesAlternate(inputs: seq<Input>)
    ensures Alternates(Run(inputs).sent)
    ensures Run(inputs).t.streak.Some? ==> Active(Run(inputs).t)
  {
    RunOk(inputs);
  }

  /** A recovery is sent only after the configured number of quiet samples since the last delivered alert. */
  lemma RecoveryEarned(inputs: seq<Input>, i: Input)
    requires Next(Run(inputs), i).sent == Run(inputs).sent + [Recovered(i.at)]
    ensures Active(Run(inputs).t) && Next(Run(inputs), i).quiet >= i.c.samples
    ensures !Active(Next(Run(inputs), i).t)
  {
    RunOk(inputs);
    assert |Run(inputs).sent + [Recovered(i.at)]| == |Run(inputs).sent| + 1;
    assert Next(Run(inputs), i).sent[|Run(inputs).sent|] == Recovered(i.at);
  }

  /** The counted samples are the successive quiet ones exactly when no triggered sample was held back by the
      cooldown, or failed to be sent, after the counting began. */
  lemma {:induction false} SuccessiveExactly(inputs: seq<Input>, i: Input)
    requires i.sample.Quiet? && Active(Run(inputs).t)
    ensures Count(Run(inputs).t) == Next(Run(inputs), i).calm <==> Run(inputs).held == 0
  {
    RunOk(inputs);
  }

  /** So "successive samples" can fail: an alert, a quiet sample, a triggered one held back, and a single quiet
      sample more send the recovery that asks for two. */
  lemma RecoveryWithoutSuccession() returns (inputs: seq<Input>, last: Input)
    ensures last.c.samples == 2
    ensures Next(Run(inputs), last).sent == Run(inputs).sent + [Recovered(last.at)]
    ensures Next(Run(inputs), last).calm == 1
  {
    var c := Config(100, 2, 0);
    var i0, i1 := Input(Triggered(Critical), c, 1, true), Input(Quiet, c, 2, true);
    var i2 := Input(Triggered(Critical), c, 3, true);
    inputs := [i0, i1, i2];
    last := Input(Quiet, c, 4, true);
    assert inputs[..2] == [i0, i1] && [i0, i1][..1] == [i0] && [i0][..0] == [];
    var p0 := Run([]);
    var p1 := Next(p0, i0);
    assert Run([i0]) == p1 && p1.t == Tables(map[Critical := 1], None, None);
    var p2 := Next(p1, i1);
    assert Run([i0, i1]) == p2 && p2.t.streak == Some(1);
    assert Run(inputs) == Next(p2, i2);
  }

  // ---------------------------------------------------------------- what is sent when

  /** Samples come at positive times and in order. */
  ghost predicate Timely(inputs: seq<Input>) {
    (forall i :: 0 <= i < |inputs| ==> inputs[i].at > 0)
    && forall i, k :: 0 <= i < k < |inputs| ==> inputs[i].at <= inputs[k].at
  }

  ghost predicate Remembers(p: Past, at: int) {
    && (Active(p.t) <==> p.episode != [])
    && (p.episode != [] ==> LatestOf(p.t.alerts) == p.episode[|p.episode| - 1] && 0 < LatestOf(p.t.alerts) <= at)
  }

  lemma RememberNext(p: Past, i: Input, at: int)
    requires Remembers(p, at) && at <= i.at && i.at > 0
    ensures Remembers(Next(p, i), i.at)
  {
    if i.sample.Triggered? && React(p.t, i.sample, i.c, i.at, i.sends).1 == AlertSent {
      LatestAfter(p.t.alerts, i.sample.severity, i.at);
      assert i.sample.severity in Next(p, i).t.alerts;
    }
  }

  /** The tables remember the last alert of the episode. */
  lemma {:induction false} LatestIsLast(inputs: seq<Input>)
    requires Timely(inputs)
    ensures Remembers(Run(inputs), if inputs == [] then 0 else inputs[|inputs| - 1].at)
    decreases |inputs|
  {
    if inputs != [] {
      var n := |inputs| - 1;
      LatestIsLast(inputs[..n]);
      RememberNext(Run(inputs[..n]), inputs[n], if n == 0 then 0 else inputs[n - 1].at);
    }
  }

  function LastRecovery(sent: seq<Sent>): Option<int>
    decreases |sent|
  {
    if sent == [] then None
    else if sent[|sent| - 1].Recovered? then Some(sent[|sent| - 1].at)
    else LastRecovery(sent[..|sent| - 1])
  }

  lemma {:induction false} RecoveryIsLast(inputs: seq<Input>)
    ensures Run(inputs).t.recoveryAt == LastRecovery(Run(inputs).sent)
    decreases |inputs|
  {
    if inputs != [] {
      var n := |inputs| - 1;
      RecoveryIsLast(inputs[..n]);
      var p, p' := Run(inputs[..n]), Run(inputs);
      if p'.sent != p.sent {
        assert p'.sent[..|p.sent|] == p.sent;
      }
    }
  }

  /** An alert goes out exactly when its sending succeeds and no alert of the episode is more recent than the
      cooldown; otherwise nothing changes. */
  lemma AlertSentExactly(inputs: seq<Input>, i: Input)
    requires Timely(inputs + [i]) && i.sample.Triggered?
    ensures var p, p' := Run(inputs), Next(Run(inputs), i);
      if i.sends && (p.episode == [] || i.c.cooldown <= 0 || i.at - p.episode[|p.episode| - 1] >= i.c.cooldown)
      then p'.sent == p.sent + [Alerted(i.at)] && p'.episode == p.episode + [i.at] && p'.t.streak == None
      else p'.sent == p.sent && p'.t == p.t
  {
    assert forall k :: 0 <= k < |inputs| ==> (inputs + [i])[k] == inputs[k];
    LatestIsLast(inputs);
  }

  /** A quiet sample ends an episode exactly when enough have been counted and the recovery goes out or is too
      soon after the last one; it goes out exactly when its sending succeeds and it is not too soon. Until then
      the samples are counted. */
  ghost predicate QuietExactly(p: Past, p': Past, i: Input) {
    var count := (if p.t.streak.Some? then p.t.streak.value else 0) + 1;
    var due := p.episode != [] && count >= i.c.samples;
    var last := LastRecovery(p.sent);
    var soon := i.c.recoveryCooldown > 0 && last.Some? && i.at - last.value < i.c.recoveryCooldown;
    && p'.sent == p.sent + (if due && !soon && i.sends then [Recovered(i.at)] else [])
    && (p'.episode == [] <==> p.episode == [] || (due && (soon || i.sends)))
    && p'.t.streak == (if p'.episode == [] then None else Some(count))
  }

  lemma QuietStep(p: Past, i: Input)
    requires i.sample.Quiet? && (Active(p.t) <==> p.episode != [])
    requires p.t.recoveryAt == LastRecovery(p.sent) && (p.t.recoveryAt.Some? ==> p.t.recoveryAt.value > 0)
    ensures QuietExactly(p, Next(p, i), i)
  {
  }

  lemma RecoverySentExactly(inputs: seq<Input>, i: Input)
    requires Timely(inputs + [i]) && i.sample.Quiet?
    ensures QuietExactly(Run(inputs), Next(Run(inputs), i), i)
  {
    assert forall k :: 0 <= k < |inputs| ==> (inputs + [i])[k] == inputs[k];
    LatestIsLast(inputs);
    RecoveryIsLast(inputs);
    RecoveryPositive(inputs);
    QuietStep(Run(inputs), i);
  }

  lemma {:induction false} RecoveryPositive(inputs: seq<Input>)
    requires Timely(inputs)
    ensures Run(inputs).t.recoveryAt.Some? ==> Run(inputs).t.recoveryAt.value > 0
    decreases |inputs|
  {
    if inputs != [] {
      RecoveryPositive(inputs[..|inputs| - 1]);
    }
  }

  // ---------------------------------------------------------------- from reports to runs

  /** The samples of a metric that the handling of a report reaches. */
  function Reached(all: AllTables, node: NodeId, events: seq<MetricEvent>, c: Config, at: int, failing: set<nat>,
                   metric: Metric): seq<Input>
    decreases |events|
  {
    if events == [] then []
    else
      var n := |events| - 1;
      var before := Reached(all, node, events[..n], c, at, failing, metric);
      if HandleAll(all, node, events[..n], c, at, failing).ok && events[n].metric == metric
      then before + [Input(events[n].sample, c, at, n !in failing)] else before
  }

  /** What was sent about a node and metric. */
  function About(sent: seq<Notice>, node: NodeId, metric: Metric): seq<Sent>
    decreases |sent|
  {
    if sent == [] then []
    else
      var n := |sent| - 1;
      About(sent[..n], node, metric)
      + if sent[n].node == node && sent[n].metric == metric then [sent[n].sent] else []
  }

  lemma {:induction false} AboutBoth(a: seq<Notice>, b: seq<Notice>, node: NodeId, metric: Metric)
    ensures About(a + b, node, metric) == About(a, node, metric) + About(b, node, metric)
    decreases |b|
  {
    if b == [] {
      assert a + b == a;
    } else {
      var n := |b| - 1;
      assert (a + b)[..|a| + n] == a + b[..n];
      AboutBoth(a, b[..n], node, metric);
    }
  }

  /** The tables and notices of a node and metric are those of a run of samples. */
  ghost predicate Projects(all: AllTables, sent: seq<Notice>, node: NodeId, metric: Metric, inputs: seq<Input>) {
    TablesOf(all, node, metric) == Run(inputs).t && About(sent, node, metric) == Run(inputs).sent
  }

  lemma RunStep(inputs: seq<Input>, i: Input)
    ensures Run(inputs + [i]) == Next(Run(inputs), i)
  {
    assert (inputs + [i])[..|inputs|] == inputs;
  }

  /** What a step adds to the notices about a node and metric. */
  lemma NoticesAbout(sent: seq<Notice>, from: NodeId, of: Metric, sending: Sending, at: int, node: NodeId,
                     metric: Metric)
    ensures About(sent + NoticeOf(from, of, sending, at), node, metric) == About(sent, node, metric) +
            if from != node || of != metric then []
            else if sending.AlertSent? then [Alerted(at)]
            else if sending.RecoverySent? then [Recovered(at)]
            else []
  {
    var notices := NoticeOf(from, of, sending, at);
    AboutBoth(sent, notices, node, metric);
    if notices != [] {
      assert notices[..0] == [];
    }
  }

  lemma NextSends(p: Past, i: Input)
    ensures var r := React(p.t, i.sample, i.c, i.at, i.sends);
      Next(p, i).t == r.0
      && Next(p, i).sent == p.sent + if r.1.AlertSent? then [Alerted(i.at)]
                                     else if r.1.RecoverySent? then [Recovered(i.at)]
                                     else []
  {
  }

  /** One event of a metric is one step of its run, and no step of another's. */
  lemma EventProjects(all: AllTables, sent: seq<Notice>, node: NodeId, metric: Metric, inputs: seq<Input>,
                      from: NodeId, of: Metric, i: Input)
    requires Projects(all, sent, node, metric, inputs)
    ensures var r := React(TablesOf(all, from, of), i.sample, i.c, i.at, i.sends);
      Projects(all[(from, of) := r.0], sent + NoticeOf(from, of, r.1, i.at), node, metric,
               if from == node && of == metric then inputs + [i] else inputs)
  {
    var r := React(TablesOf(all, from, of), i.sample, i.c, i.at, i.sends);
    NoticesAbout(sent, from, of, r.1, i.at, node, metric);
    RunStep(inputs, i);
    NextSends(Run(inputs), i);
  }

  /** The last event a report's handling reaches. */
  lemma LastProjects(all: AllTables, sent: seq<Notice>, node: NodeId, metric: Metric, inputs: seq<Input>,
                     from: NodeId, events: seq<MetricEvent>, c: Config, at: int, failing: set<nat>)
    requires events != []
    requires var n := |events| - 1;
      var h := HandleAll(all, from, events[..n], c, at, failing);
      h.ok && Projects(h.tables, sent + h.sent, node, metric, inputs)
    ensures var n := |events| - 1;
      var h := HandleAll(all, from, events, c, at, failing);
      Projects(h.tables, sent + h.sent, node, metric,
               if from == node && events[n].metric == metric
               then inputs + [Input(events[n].sample, c, at, n !in failing)] else inputs)
  {
    var n := |events| - 1;
    var i := Input(events[n].sample, c, at, n !in failing);
    var h := HandleAll(all, from, events[..n], c, at, failing);
    var r := React(TablesOf(h.tables, from, events[n].metric), i.sample, c, at, i.sends);
    EventProjects(h.tables, sent + h.sent, node, metric, inputs, from, events[n].metric, i);
    HandleNext(all, from, events, c, at, failing, n);
    assert events[..n + 1] == events;
    SentTogether(sent, h.sent, NoticeOf(from, events[n].metric, r.1, at));
  }

  lemma SentTogether(a: seq<Notice>, b: seq<Notice>, c: seq<Notice>)
    ensures a + (b + c) == (a + b) + c
  {
  }

  function ReachedBy(all: AllTables, node: NodeId, metric: Metric, from: NodeId, events: seq<MetricEvent>,
                     c: Config, at: int, failing: set<nat>): seq<Input>
  {
    if from == node then Reached(all, from, events, c, at, failing, metric) else []
  }

  lemma ReachedLast(all: AllTables, node: NodeId, metric: Metric, from: NodeId, events: seq<MetricEvent>, c: Config,
                    at: int, failing: set<nat>, inputs: seq<Input>)
    requires events != []
    ensures var n := |events| - 1;
      var before := inputs + ReachedBy(all, node, metric, from, events[..n], c, at, failing);
      inputs + ReachedBy(all, node, metric, from, events, c, at, failing) ==
      if HandleAll(all, from, events[..n], c, at, failing).ok && from == node && events[n].metric == metric
      then before + [Input(events[n].sample, c, at, n !in failing)] else before
  {
    var n := |events| - 1;
    var before := ReachedBy(all, node, metric, from, events[..n], c, at, failing);
    var i := Input(events[n].sample, c, at, n !in failing);
    assert inputs + (before + [i]) == (inputs + before) + [i];
  }

  lemma {:induction false} HandlingProjects(all: AllTables, sent: seq<Notice>, node: NodeId, metric: Metric,
                                            inputs: seq<Input>, from: NodeId, events: seq<MetricEvent>,
                                            c: Config, at: int, failing: set<nat>)
    requires Projects(all, sent, node, metric, inputs)
    ensures var h := HandleAll(all, from, events, c, at, failing);
      Projects(h.tables, sent + h.sent, node, metric,
               inputs + ReachedBy(all, node, metric, from, events, c, at, failing))
    decreases |events|
  {
    if events == [] {
      assert sent + [] == sent && inputs + [] == inputs;
    } else {
      var n := |events| - 1;
      HandlingProjects(all, sent, node, metric, inputs, from, events[..n], c, at, failing);
      ReachedLast(all, node, metric, from, events, c, at, failing, inputs);
      if HandleAll(all, from, events[..n], c, at, failing).ok {
        var before := inputs + ReachedBy(all, node, metric, from, events[..n], c, at, failing);
        LastProjects(all, sent, node, metric, before, from, events, c, at, failing);
      } else {
        HandleFailed(all, from, events, c, at, failing, n);
      }
    }
  }

  /** The evaluator after a list of reports, each handled as Process does: the tables and all notices sent. */
  function Evaluated(reports: seq<Report>): (AllTables, seq<Notice>)
    decreases |reports|
  {
    if reports == [] then (map[], [])
    else
      var before := Evaluated(reports[..|reports| - 1]);
      var h := Handled(before.0, reports[|reports| - 1]);
      (h.tables, before.1 + h.sent)
  }

  /** The samples of a node and metric that the reports reach. */
  function SamplesOf(reports: seq<Report>, node: NodeId, metric: Metric): seq<Input>
    decreases |reports|
  {
    if reports == [] then []
    else
      var n := |reports| - 1;
      var r := reports[n];
      SamplesOf(reports[..n], node, metric) +
      if !Notifies(r.settings, r.node) then []
      else ReachedBy(Evaluated(reports[..n]).0, node, metric, r.node, EventsOf(r.readings), r.settings.config, r.at,
                     r.failing)
  }

  /** Over any reports of any nodes, under any settings and failures, the tables of a node and metric and the
      notices about them are those of the run of its samples. */
  lemma {:induction false} ReportsProject(reports: seq<Report>, node: NodeId, metric: Metric)
    ensures TablesOf(Evaluated(reports).0, node, metric) == Run(SamplesOf(reports, node, metric)).t
    ensures About(Evaluated(reports).1, node, metric) == Run(SamplesOf(reports, node, metric)).sent
    decreases |reports|
  {
    if reports != [] {
      var n := |reports| - 1;
      var r, before := reports[n], Evaluated(reports[..n]);
      var inputs := SamplesOf(reports[..n], node, metric);
      ReportsProject(reports[..n], node, metric);
      if Notifies(r.settings, r.node) {
        HandlingProjects(before.0, before.1, node, metric, inputs, r.node, EventsOf(r.readings), r.settings.config,
                         r.at, r.failing);
      } else {
        assert before.1 + [] == before.1 && inputs + [] == inputs;
      }
    }
  }

  /** So, whatever is reported, an alert about a node and metric lies between any two recoveries about them. */
  lemma ReportedRecoveriesAlternate(reports: seq<Report>, node: NodeId, metric: Metric)
    ensures Alternates(About(Evaluated(reports).1, node, metric))
  {
    ReportsProject(reports, node, metric);
    RecoveriesAlternate(SamplesOf(reports, node, metric));
  }

  // ---------------------------------------------------------------- the cooldown inside an episode

  /** All samples with positive times and a cooldown of at least the given length. */
  ghost predicate Cooled(inputs: seq<Input>, cooldown: int) {
    cooldown > 0 && forall i :: 0 <= i < |inputs| ==> inputs[i].at > 0 && inputs[i].c.cooldown >= cooldown
  }

  lemma LatestAfter(alerts: map<Severity, int>, severity: Severity, at: int)
    requires alerts == map[] || at >= LatestOf(alerts)
    ensures LatestOf(alerts[severity := at]) == at
  {
    if alerts == map[] {
      assert alerts[severity := at] == map[severity := at];
    }
  }

  /** The alerts sent within an episode are at least the cooldown apart, across severities. */
  lemma {:induction false} AlertsCooldownApart(inputs: seq<Input>, cooldown: int)
    requires Cooled(inputs, cooldown)
    ensures var episode := Run(inputs).episode;
      && (forall i, k :: 0 <= i < k < |episode| ==> episode[k] - episode[i] >= cooldown)
      && (episode != [] ==> LatestOf(Run(inputs).t.alerts) == episode[|episode| - 1] > 0)
    decreases |inputs|
  {
    RunOk(inputs);
    if inputs != [] {
      var front, last := inputs[..|inputs| - 1], inputs[|inputs| - 1];
      AlertsCooldownApart(front, cooldown);
      RunOk(front);
      var p := Run(front);
      assert last == inputs[|inputs| - 1] && last.at > 0 && last.c.cooldown >= cooldown;
      if last.sample.Triggered? && React(p.t, last.sample, last.c, last.at, last.sends).1 == AlertSent {
        LatestAfter(p.t.alerts, last.sample.severity, last.at);
      }
    }
  }

  /** All samples with positive times and a recovery cooldown of at least the given length. */
  ghost predicate RecoveryCooled(inputs: seq<Input>, cooldown: int) {
    cooldown > 0 && forall i :: 0 <= i < |inputs| ==> inputs[i].at > 0 && inputs[i].c.recoveryCooldown >= cooldown
  }

  lemma NextRecovery(p: Past, i: Input, cooldown: int)
    requires cooldown > 0 && i.c.recoveryCooldown >= cooldown
    ensures var p' := Next(p, i);
      || (p'.t.recoveryAt == p.t.recoveryAt && (p'.sent == p.sent || p'.sent == p.sent + [Alerted(i.at)]))
      || (p'.t.recoveryAt == Some(i.at) && p'.sent == p.sent + [Recovered(i.at)]
          && (p.t.recoveryAt.Some? && p.t.recoveryAt.value > 0 ==> i.at - p.t.recoveryAt.value >= cooldown))
  {
  }

  /** The recoveries sent are the cooldown apart, the latest of them last in the table. */
  ghost predicate RecoveriesApart(sent: seq<Sent>, latest: Option<int>, cooldown: int) {
    && (forall i, k :: 0 <= i < k < |sent| && sent[i].Recovered? && sent[k].Recovered?
          ==> sent[k].at - sent[i].at >= cooldown)
    && (forall i :: 0 <= i < |sent| && sent[i].Recovered? ==> latest.Some? && 0 < sent[i].at <= latest.value)
  }

  lemma OneMoreApart(sent: seq<Sent>, latest: Option<int>, cooldown: int, next: Sent)
    requires RecoveriesApart(sent, latest, cooldown) && cooldown > 0
    requires next.Recovered? ==> next.at > 0
    requires next.Recovered? && latest.Some? && latest.value > 0 ==> next.at - latest.value >= cooldown
    ensures RecoveriesApart(sent + [next], if next.Recovered? then Some(next.at) else latest, cooldown)
  {
  }

  /** The recoveries sent are at least their cooldown apart, across episodes. */
  lemma {:induction false} RecoveriesCooldownApart(inputs: seq<Input>, cooldown: int)
    requires RecoveryCooled(inputs, cooldown)
    ensures RecoveriesApart(Run(inputs).sent, Run(inputs).t.recoveryAt, cooldown)
    decreases |inputs|
  {
    if inputs != [] {
      var n := |inputs| - 1;
      var before, input := Run(inputs[..n]), inputs[n];
      RecoveriesCooldownApart(inputs[..n], cooldown);
      NextRecovery(before, input, cooldown);
      if Next(before, input).sent != before.sent {
        OneMoreApart(before.sent, before.t.recoveryAt, cooldown, Next(before, input).sent[|before.sent|]);
      }
    }
  }

  function Gravity(sample: Sample): nat {
    match sample
    case Quiet => 0
    case Triggered(Warning) => 1
    case Triggered(Critical) => 2
  }

  /** A higher value is never classified as less grave, whichever threshold is the larger, and a threshold that is
      not positive is switched off. */
  lemma GravityGrows(low: real, high: real, warning: real, critical: real)
    requires low <= high
    ensures Gravity(Classify(low, warning, critical)) <= Gravity(Classify(high, warning, critical))
    ensures warning <= 0.0 && critical <= 0.0 ==> Classify(high, warning, critical) == Quiet
  {
  }
}
