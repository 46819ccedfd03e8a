/**
 The alert dispatcher: a bounded first-in first-out queue between the agents'
 connections and one worker, whose capacity changes at run time, with rate
 limited logging of dropped work.
 */
module Dispatcher {
  import opened Basics
  import opened Protocol

  const DEFAULT_CAPACITY := 256
  const DEFAULT_INTERVAL := 60

  datatype Work = Metrics(node: NodeId, ts: int) | Heartbeat(node: NodeId, online: bool, at: int)

  /** The dispatcher's fields. */
  datatype Fields = Fields(
    queue: seq<Work>, capacity: int, closed: bool,
    enqueued: nat, processed: nat, dropped: nat, high: nat,
    lastLogAt: Option<int>, droppedAtLog: nat, interval: int, alerting: bool)

  function Normal(capacity: int): int {
    if capacity <= 0 then DEFAULT_CAPACITY else capacity
  }

  function Interval(f: Fields): int {
    if f.interval <= 0 then DEFAULT_INTERVAL else f.interval
  }

  /** A drop is logged unless the last log is too recent. */
  predicate LogsDrop(f: Fields, now: int) {
    f.lastLogAt.None? || now - f.lastLogAt.value >= Interval(f)
  }

  predicate Accepts(f: Fields) {
    !f.closed && |f.queue| < f.capacity
  }

  function Dropped(f: Fields, now: int): Fields {
    var f1 := f.(dropped := f.dropped + 1);
    if f.closed || !LogsDrop(f, now) then f1
    else f1.(lastLogAt := Some(now), droppedAtLog := f1.dropped)
  }

  function Enqueued(f: Fields, work: Work): Fields {
    f.(queue := f.queue + [work], enqueued := f.enqueued + 1,
       high := if |f.queue| + 1 > f.high then |f.queue| + 1 else f.high)
  }

  datatype Fetch = Wait | Finished | Fetched(work: Work)

  function Fetching(f: Fields): Fetch {
    if f.queue != [] then Fetched(f.queue[0]) else if f.closed then Finished else Wait
  }

  // ---------------------------------------------------------------- the dispatcher as an object

  class AlertDispatcher {
    var queue: seq<Work>
    var capacity: int
    var closed: bool
    var enqueued: nat
    var processed: nat
    var dropped: nat
    var high: nat
    var lastLogAt: Option<int>
    var droppedAtLog: nat
    var interval: int
    var alerting: bool

    function View(): Fields
      reads this
    {
      Fields(queue, capacity, closed, enqueued, processed, dropped, high, lastLogAt, droppedAtLog, interval, alerting)
    }

    constructor (capacity: int, interval: int)
      ensures View() == Fields([], Normal(capacity), false, 0, 0, 0, 0, None, 0, interval, false)
    {
      queue, closed, lastLogAt, alerting := [], false, None, false;
      this.capacity := if capacity <= 0 then DEFAULT_CAPACITY else capacity;
      enqueued, processed, dropped, high, droppedAtLog := 0, 0, 0, 0, 0;
      this.interval := interval;
    }

    method ApplyQueueCapacity(capacity: int)
      modifies this`capacity
      ensures View() == old(View()).(capacity := Normal(capacity))
      ensures this.capacity == (if capacity > 0 then capacity else 256)
    {
      var wanted := if capacity <= 0 then DEFAULT_CAPACITY else capacity;
      if this.capacity != wanted {
        this.capacity := wanted;
      }
    }

    /** Whether to log a drop that was just counted, and how many drops the log line reports. */
    method ShouldLogDrop(now: int) returns (log: Option<nat>)
      requires droppedAtLog <= dropped
      modifies this`lastLogAt, this`droppedAtLog
      ensures log.Some? <==> LogsDrop(old(View()), now)
      ensures View() == if log.Some? then old(View()).(lastLogAt := Some(now), droppedAtLog := dropped) else old(View())
      ensures log.Some? ==> log.value == if dropped == old(droppedAtLog) then 1 else dropped - old(droppedAtLog)
    {
      var interval := if this.interval <= 0 then DEFAULT_INTERVAL else this.interval;
      if lastLogAt.Some? && now - lastLogAt.value < interval {
        return None;
      }
      var since := dropped - droppedAtLog;
      if since == 0 {
        since := 1;
      }
      lastLogAt, droppedAtLog := Some(now), dropped;
      return Some(since);
    }

    /** Append the work, or count it as dropped; a drop may be logged and may start a drop alert. */
    method Enqueue(work: Work, now: int, notify: bool) returns (accepted: bool, log: Option<nat>, alert: bool)
      requires droppedAtLog <= dropped
      modifies this
      ensures accepted <==> !old(closed) && |old(queue)| < old(capacity)
      ensures queue == (if accepted then old(queue) + [work] else old(queue))
      ensures enqueued + dropped == old(enqueued) + old(dropped) + 1 && (accepted <==> enqueued > old(enqueued))
      ensures accepted ==> View() == Enqueued(old(View()), work) && log.None? && !alert
      ensures !accepted ==> View() == Dropped(old(View()), now).(alerting := old(alerting) || alert)
      ensures log.Some? <==> !accepted && !old(closed) && LogsDrop(old(View()), now)
      ensures log.Some? ==> log.value == dropped - old(droppedAtLog)
      ensures alert <==> log.Some? && notify && !old(alerting)
    {
      if closed {
        dropped := dropped + 1;
        return false, None, false;
      }
      if |queue| >= capacity {
        dropped := dropped + 1;
        log := ShouldLogDrop(now);
        alert := log.Some? && notify && !alerting;
        if alert {
          alerting := true;
        }
        return false, log, alert;
      }
      queue := queue + [work];
      enqueued := enqueued + 1;
      if |queue| > high {
        high := |queue|;
      }
      return true, None, false;
    }

    /** Take the oldest work; with none, the worker ends once closed and waits otherwise. */
    method Dequeue() returns (fetch: Fetch)
      modifies this`queue
      ensures fetch == Fetching(old(View()))
      ensures old(queue) != [] ==> fetch == Fetched(old(queue)[0])
      ensures old(queue) == [] ==> fetch == (if closed then Finished else Wait)
      ensures View() == old(View()).(queue := if fetch.Fetched? then old(queue)[1..] else old(queue))
    {
      if |queue| == 0 {
        return if closed then Finished else Wait;
      }
      fetch := Fetched(queue[0]);
      queue := queue[1..];
    }

    method MarkProcessed()
      modifies this`processed
      ensures View() == old(View()).(processed := old(processed) + 1)
    {
      processed := processed + 1;
    }

    method FinishDropAlert()
      modifies this`alerting
      ensures View() == old(View()).(alerting := false)
    {
      alerting := false;
    }

    method Close()
      modifies this`closed
      ensures View() == old(View()).(closed := true)
    {
      closed := true;
    }
  }

  // ---------------------------------------------------------------- runs

  datatype Event =
    | SetCapacity(capacity: int)
    | Offer(work: Work, now: int)
    | Take
    | Complete
    | AlertDone
    | Shut

  datatype LogLine = LogLine(at: int, count: int)

  /** The fields, the work in the worker's hands, and what happened so far. */
  datatype History = History(
    f: Fields, hands: Option<Work>, accepted: seq<Work>, done: seq<Work>, offers: nat, logs: seq<LogLine>)

  function Step(h: History, e: Event): History {
    match e
    case SetCapacity(c) => h.(f := h.f.(capacity := Normal(c)))
    case Offer(work, now) =>
      if Accepts(h.f) then h.(f := Enqueued(h.f, work), accepted := h.accepted + [work], offers := h.offers + 1)
      else
        h.(f := Dropped(h.f, now), offers := h.offers + 1,
           logs := h.logs +
             (if !h.f.closed && LogsDrop(h.f, now) then [LogLine(now, h.f.dropped + 1 - h.f.droppedAtLog)] else []))
    case Take =>
      if h.hands.None? && Fetching(h.f).Fetched?
      then h.(f := h.f.(queue := h.f.queue[1..]), hands := Some(h.f.queue[0]))
      else h
    case Complete =>
      if h.hands.Some?
      then h.(f := h.f.(processed := h.f.processed + 1), hands := None, done := h.done + [h.hands.value])
      else h
    case AlertDone => h.(f := h.f.(alerting := false))
    case Shut => h.(f := h.f.(closed := true))
  }

  function Run(h: History, es: seq<Event>): History
    decreases |es|
  {
    if es == [] then h else Step(Run(h, es[..|es| - 1]), es[|es| - 1])
  }

  function New(capacity: int, interval: int): History {
    History(Fields([], Normal(capacity), false, 0, 0, 0, 0, None, 0, interval, false), None, [], [], 0, [])
  }

  function InHands(h: History): seq<Work> {
    if h.hands.Some? then [h.hands.value] else []
  }

  function Total(logs: seq<LogLine>): int
    decreases |logs|
  {
    if logs == [] then 0 else Total(logs[..|logs| - 1]) + logs[|logs| - 1].count
  }

  /** Every accepted work is done, in hands or queued, in order; every offer is accepted or dropped; every log
      line reports a positive number of drops, the lines add up, and are an interval apart. */
  ghost predicate Conserved(h: History) {
    && h.done + InHands(h) + h.f.queue == h.accepted
    && h.offers == h.f.enqueued + h.f.dropped
    && h.f.enqueued == |h.accepted| && h.f.processed == |h.done|
    && Total(h.logs) == h.f.droppedAtLog <= h.f.dropped
    && (forall i :: 0 <= i < |h.logs| ==> h.logs[i].count > 0)
    && (forall i :: 0 <= i < |h.logs| - 1 ==> h.logs[i + 1].at - h.logs[i].at >= Interval(h.f))
    && h.f.lastLogAt == (if h.logs == [] then None else Some(h.logs[|h.logs| - 1].at))
  }

  lemma DropConserves(h: History, work: Work, now: int)
    requires Conserved(h) && !Accepts(h.f)
    ensures Conserved(Step(h, Offer(work, now)))
  {
    var h' := Step(h, Offer(work, now));
    if !h.f.closed && LogsDrop(h.f, now) {
      assert h'.logs[..|h'.logs| - 1] == h.logs;
    } else {
      assert h'.logs == h.logs;
    }
  }

  lemma TakeConserves(h: History)
    requires Conserved(h) && h.hands.None? && h.f.queue != []
    ensures Conserved(Step(h, Take))
  {
    assert h.done + [] + h.f.queue == h.done + [h.f.queue[0]] + h.f.queue[1..];
  }

  lemma AcceptConserves(h: History, work: Work, now: int)
    requires Conserved(h) && Accepts(h.f)
    ensures Conserved(Step(h, Offer(work, now)))
  {
    var h' := Step(h, Offer(work, now));
    assert h'.done + InHands(h') + h'.f.queue == h.done + InHands(h) + h.f.queue + [work];
  }

  lemma StepConserves(h: History, e: Event)
    requires Conserved(h)
    ensures Conserved(Step(h, e))
    ensures h.accepted <= Step(h, e).accepted && h.done <= Step(h, e).done
  {
    match e {
      case Offer(work, now) => if Accepts(h.f) { AcceptConserves(h, work, now); } else { DropConserves(h, work, now); }
      case Take => if h.hands.None? && h.f.queue != [] { TakeConserves(h); }
      case _ =>
    }
  }

  /** Over every run with capacity changes and a close. */
  lemma {:induction false} RunConserves(capacity: int, interval: int, es: seq<Event>)
    ensures Conserved(Run(New(capacity, interval), es))
    decreases |es|
  {
    if es != [] {
      RunConserves(capacity, interval, es[..|es| - 1]);
      StepConserves(Run(New(capacity, interval), es[..|es| - 1]), es[|es| - 1]);
    }
  }

  /** The queue grows exactly by an offer below the current capacity and before the close, at its end; every
      other offer is counted as dropped. So it exceeds the capacity only after the capacity was lowered. */
  lemma GrowsBelowCapacity(h: History, e: Event)
    ensures |Step(h, e).f.queue| > |h.f.queue| <==> e.Offer? && !h.f.closed && |h.f.queue| < h.f.capacity
    ensures |Step(h, e).f.queue| > |h.f.queue| ==>
      Step(h, e).f.queue == h.f.queue + [e.work] && |Step(h, e).f.queue| <= Step(h, e).f.capacity
    ensures e.Offer? && |Step(h, e).f.queue| <= |h.f.queue| ==>
      Step(h, e).f.queue == h.f.queue && Step(h, e).f.dropped == h.f.dropped + 1
  {
  }

  /** The capacity is the one set last, 256 for one that is not positive, and the close is final. */
  lemma SettingsStay(h: History, e: Event)
    ensures Step(h, e).f.capacity ==
      if e.SetCapacity? then (if e.capacity > 0 then e.capacity else 256) else h.f.capacity
    ensures Step(h, e).f.closed <==> h.f.closed || e.Shut?
    ensures Step(h, e).f.interval == h.f.interval
    ensures Step(h, e).f.alerting <==> h.f.alerting && !e.AlertDone?
  {
  }

  /** A drop before the close is logged exactly when it is the first or the last line is an interval old, a
      minute where none is set; the line counts the drops since the last one. A drop after the close never is. */
  lemma LoggedExactly(capacity: int, interval: int, es: seq<Event>, work: Work, now: int)
    ensures var h := Run(New(capacity, interval), es);
      var h' := Step(h, Offer(work, now));
      var full := |h.f.queue| >= h.f.capacity;
      if !h.f.closed && full
         && (h.logs == [] || now - h.logs[|h.logs| - 1].at >= (if interval > 0 then interval else 60))
      then h'.logs == h.logs + [LogLine(now, h'.f.dropped - Total(h.logs))] else h'.logs == h.logs
  {
    RunConserves(capacity, interval, es);
    IntervalStays(capacity, interval, es);
  }

  lemma {:induction false} IntervalStays(capacity: int, interval: int, es: seq<Event>)
    ensures Run(New(capacity, interval), es).f.interval == interval
    decreases |es|
  {
    if es != [] {
      IntervalStays(capacity, interval, es[..|es| - 1]);
    }
  }

  /** The length of the queue after the first events of a run. */
  function LengthAt(capacity: int, interval: int, es: seq<Event>, i: nat): nat
    requires i <= |es|
  {
    |Run(New(capacity, interval), es[..i]).f.queue|
  }

  lemma LengthInFront(capacity: int, interval: int, es: seq<Event>, i: nat)
    requires i < |es|
    ensures LengthAt(capacity, interval, es[..|es| - 1], i) == LengthAt(capacity, interval, es, i)
  {
    assert es[..|es| - 1][..i] == es[..i];
  }

  lemma MarkAfter(capacity: int, interval: int, es: seq<Event>)
    requires es != []
    requires var h := Run(New(capacity, interval), es[..|es| - 1]); |h.f.queue| <= h.f.high
    ensures var before := Run(New(capacity, interval), es[..|es| - 1]).f.high;
      var now := LengthAt(capacity, interval, es, |es|);
      Run(New(capacity, interval), es).f.high == if now > before then now else before
  {
    assert es[..|es|] == es;
    MarkRises(Run(New(capacity, interval), es[..|es| - 1]), es[|es| - 1]);
  }

  /** The high-water mark is the length the queue reached: it was never longer, and it was that long. */
  lemma {:induction false} HighWater(capacity: int, interval: int, es: seq<Event>) returns (peak: nat)
    ensures peak <= |es| && LengthAt(capacity, interval, es, peak) == Run(New(capacity, interval), es).f.high
    ensures forall i :: 0 <= i <= |es| ==>
      LengthAt(capacity, interval, es, i) <= Run(New(capacity, interval), es).f.high
    decreases |es|
  {
    peak := 0;
    assert es[..|es|] == es;
    if es != [] {
      var n := |es| - 1;
      peak := HighWater(capacity, interval, es[..n]);
      assert LengthAt(capacity, interval, es[..n], n) == |Run(New(capacity, interval), es[..n]).f.queue| by {
        assert es[..n][..n] == es[..n];
      }
      MarkAfter(capacity, interval, es);
      forall i | 0 <= i < |es|
        ensures LengthAt(capacity, interval, es, i) == LengthAt(capacity, interval, es[..n], i)
      {
        LengthInFront(capacity, interval, es, i);
      }
      if Run(New(capacity, interval), es).f.high > Run(New(capacity, interval), es[..n]).f.high {
        peak := |es|;
      }
    }
  }

  lemma MarkRises(h: History, e: Event)
    requires |h.f.queue| <= h.f.high
    ensures var h' := Step(h, e);
      h'.f.high == if |h'.f.queue| > h.f.high then |h'.f.queue| else h.f.high
  {
  }

  function Drain(h: History): (h': History)
    decreases |h.f.queue| * 2 + (if h.hands.Some? then 1 else 0)
  {
    if h.hands.Some? then Drain(Step(h, Complete))
    else if h.f.queue != [] then Drain(Step(h, Take))
    else h
  }

  /** A closed queue still drains: the worker completes everything that was accepted, and only then ends. */
  lemma {:induction false} ClosedDrains(h: History)
    requires Conserved(h) && h.f.closed
    ensures var h' := Drain(h);
      && h'.done == h.accepted && h'.f.queue == [] && h'.hands.None? && Fetching(h'.f) == Finished
      && h'.accepted == h.accepted
    decreases |h.f.queue| * 2 + (if h.hands.Some? then 1 else 0)
  {
    if h.hands.Some? {
      StepConserves(h, Complete);
      ClosedDrains(Step(h, Complete));
    } else if h.f.queue != [] {
      StepConserves(h, Take);
      ClosedDrains(Step(h, Take));
    }
  }
}
