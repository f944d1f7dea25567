/** The diagnostics recorder (observability.py) as a concurrent step system.

    Emitters, closers and the worker are threads. Every lock region and every queue
    operation is one atomic step, so a run is any interleaving of the steps below. */
module Diagnostics {
  type Event = nat

  datatype Entry = Data(event: Event) | StopSentinel

  /** Where the worker thread is in its drain loop. */
  datatype Worker =
    | Waiting                 // about to take from the queue
    | Taken(event: Event)     // took an event, has not yet lowered the queued count
    | Calling(event: Event)   // inside the sink
    | Raised(event: Event)    // the sink raised, the failure is not yet counted
    | Returning(event: Event) // the sink call is over, pending not yet lowered
    | Stopped                 // took the sentinel and left the loop

  datatype Recorder = Recorder(
    maxEvents: nat, maxQueued: nat, hasSink: bool,
    events: seq<Event>,        // the bounded ring of recent events
    emitted: nat, sinkDropped: nat, sinkFailed: nat,
    pending: int, queued: int, closed: bool, stopEnqueued: bool,
    queue: seq<Entry>,
    owedSentinels: nat,        // closers between their lock region and their put
    worker: Worker,
    overflow: bool,            // some put met a full queue
    log: seq<Event>,           // every event ever emitted
    admitted: seq<Event>,      // every event ever put on the queue
    called: seq<Event>,        // every event handed to the sink
    finished: nat)             // sink calls over and accounted for

  function Start(maxEvents: nat, maxQueued: nat, hasSink: bool): Recorder {
    Recorder(maxEvents, maxQueued, hasSink, [], 0, 0, 0, 0, 0, false, false, [], 0,
             if hasSink then Waiting else Stopped, false, [], [], [], 0)
  }

  datatype Step =
    | Emit(event: Event)  // one lock region of an emitter
    | CloseRegion         // the lock region of a closer
    | PutSentinel         // a closer's put, after any flush it waited for
    | Take                // the worker's queue get
    | LowerQueued         // the worker's first lock region
    | SinkReturns | SinkRaises
    | CountFailure        // the failure lock region
    | LowerPending        // the final lock region and task_done

  function Ring(n: nat, xs: seq<Event>): seq<Event> {
    if |xs| <= n then xs else xs[|xs| - n..]
  }

  /** A put on the physical queue, which holds one more entry than the admission limit. */
  function Put(r: Recorder, e: Entry): Recorder {
    if |r.queue| >= r.maxQueued + 1 then r.(overflow := true) else r.(queue := r.queue + [e])
  }

  predicate Enabled(r: Recorder, s: Step) {
    match s
    case Emit(_) => true
    case CloseRegion => true
    case PutSentinel => r.owedSentinels > 0
    case Take => r.worker == Waiting && r.queue != []
    case LowerQueued => r.worker.Taken?
    case SinkReturns => r.worker.Calling?
    case SinkRaises => r.worker.Calling?
    case CountFailure => r.worker.Raised?
    case LowerPending => r.worker.Returning?
  }

  function Next(r: Recorder, s: Step): Recorder
    requires Enabled(r, s)
  {
    match s
    case Emit(e) =>
      var r1 := r.(events := Ring(r.maxEvents, r.events + [e]), emitted := r.emitted + 1, log := r.log + [e]);
      if !r.hasSink then r1
      else if r.closed || r.queued >= r.maxQueued then r1.(sinkDropped := r.sinkDropped + 1)
      else Put(r1, Data(e)).(queued := r.queued + 1, pending := r.pending + 1, admitted := r.admitted + [e])
    case CloseRegion =>
      var signal := r.hasSink && !r.stopEnqueued;
      r.(closed := true,
         stopEnqueued := r.stopEnqueued || signal,
         owedSentinels := r.owedSentinels + if signal then 1 else 0)
    case PutSentinel => Put(r, StopSentinel).(owedSentinels := r.owedSentinels - 1)
    case Take =>
      (match r.queue[0]
       case Data(e) => r.(queue := r.queue[1..], worker := Taken(e))
       case StopSentinel => r.(queue := r.queue[1..], worker := Stopped))
    case LowerQueued =>
      r.(queued := r.queued - 1, worker := Calling(r.worker.event), called := r.called + [r.worker.event])
    case SinkReturns => r.(worker := Returning(r.worker.event))
    case SinkRaises => r.(worker := Raised(r.worker.event))
    case CountFailure => r.(sinkFailed := r.sinkFailed + 1, worker := Returning(r.worker.event))
    case LowerPending => r.(pending := r.pending - 1, finished := r.finished + 1, worker := Waiting)
  }

  // ---- what every interleaving keeps ----

  function Entries(xs: seq<Event>): seq<Entry> {
    seq(|xs|, i requires 0 <= i < |xs| => Data(xs[i]))
  }

  /** The event the worker holds but has not handed to the sink. */
  function InHand(w: Worker): seq<Event> {
    if w.Taken? then [w.event] else []
  }

  /** One if an event's sink call is under way or just over, but still counted as pending. */
  function AtSink(w: Worker): nat {
    if w.Calling? || w.Raised? || w.Returning? then 1 else 0
  }

  /** `waiting` is the data still in the queue, in admission order. */
  ghost predicate Sound(r: Recorder, waiting: seq<Event>) {
    && !r.overflow
    && r.admitted == r.called + InHand(r.worker) + waiting
    && r.queued == |InHand(r.worker)| + |waiting|
    && r.pending == r.queued + AtSink(r.worker)
    && r.queued <= r.maxQueued
    && r.finished == |r.called| - AtSink(r.worker)
    && r.emitted == |r.log|
    && r.events == Ring(r.maxEvents, r.log)
    && (r.hasSink ==> r.emitted == r.sinkDropped + |r.admitted|)
    && (!r.hasSink ==> r.admitted == [] && r.sinkDropped == 0 && !r.stopEnqueued && r.worker.Stopped?)
    && (r.stopEnqueued ==> r.closed)
    && r.owedSentinels <= (if r.stopEnqueued then 1 else 0)
    && (r.hasSink ==> r.queue == Entries(waiting) + Sentinel(r))
    && (!r.hasSink ==> r.queue == [])
    && (r.worker.Stopped? ==> waiting == [])
    && (r.hasSink && r.worker.Stopped? ==> r.stopEnqueued && r.owedSentinels == 0)
  }

  /** The sentinel, while it is in the queue: put, and not yet taken. */
  function Sentinel(r: Recorder): seq<Entry> {
    if r.stopEnqueued && r.owedSentinels == 0 && !r.worker.Stopped? then [StopSentinel] else []
  }

  function WaitingAfter(r: Recorder, waiting: seq<Event>, s: Step): seq<Event> {
    match s
    case Emit(e) => if r.hasSink && !r.closed && r.queued < r.maxQueued then waiting + [e] else waiting
    case Take => if waiting == [] then [] else waiting[1..]
    case _ => waiting
  }

  lemma StepSound(r: Recorder, waiting: seq<Event>, s: Step)
    requires Sound(r, waiting) && Enabled(r, s)
    ensures Sound(Next(r, s), WaitingAfter(r, waiting, s))
  {
    match s
    case Emit(e) => EmitSound(r, waiting, e);
    case Take => TakeSound(r, waiting);
    case LowerQueued =>
      assert Next(r, s).admitted == Next(r, s).called + InHand(Next(r, s).worker) + waiting;
    case _ =>
  }

  lemma EmitSound(r: Recorder, waiting: seq<Event>, e: Event)
    requires Sound(r, waiting)
    ensures Sound(Next(r, Emit(e)), WaitingAfter(r, waiting, Emit(e)))
  {
    hide Ring;
    RingGrows(r.maxEvents, r.log, e);
    if r.hasSink && !r.closed && r.queued < r.maxQueued {
      assert Entries(waiting + [e]) == Entries(waiting) + [Data(e)];
    }
  }

  lemma TakeSound(r: Recorder, waiting: seq<Event>)
    requires Sound(r, waiting) && Enabled(r, Take)
    ensures Sound(Next(r, Take), WaitingAfter(r, waiting, Take))
  {
    if waiting != [] {
      assert r.queue[0] == Data(waiting[0]);
      assert Entries(waiting)[1..] == Entries(waiting[1..]);
      assert waiting == [waiting[0]] + waiting[1..];
    } else {
      assert r.queue == Sentinel(r) == [StopSentinel];
    }
  }

  lemma RingGrows(n: nat, xs: seq<Event>, e: Event)
    ensures Ring(n, Ring(n, xs) + [e]) == Ring(n, xs + [e])
  {
  }

  // ---- whole runs ----

  /** A run is a sequence of states from the start, each one enabled step after the last. */
  ghost predicate IsRun(states: seq<Recorder>, steps: seq<Step>, maxEvents: nat, maxQueued: nat, hasSink: bool) {
    && |states| == |steps| + 1
    && states[0] == Start(maxEvents, maxQueued, hasSink)
    && forall i :: 0 <= i < |steps| ==> Enabled(states[i], steps[i]) && states[i + 1] == Next(states[i], steps[i])
  }

  lemma {:induction false} RunSound(states: seq<Recorder>, steps: seq<Step>, maxEvents: nat, maxQueued: nat,
                                    hasSink: bool, i: nat) returns (waiting: seq<Event>)
    requires IsRun(states, steps, maxEvents, maxQueued, hasSink)
    requires i < |states|
    ensures Sound(states[i], waiting)
    ensures states[i].maxQueued == maxQueued && states[i].maxEvents == maxEvents && states[i].hasSink == hasSink
  {
    if i == 0 {
      waiting := [];
    } else {
      var before := RunSound(states, steps, maxEvents, maxQueued, hasSink, i - 1);
      StepSound(states[i - 1], before, steps[i - 1]);
      waiting := WaitingAfter(states[i - 1], before, steps[i - 1]);
    }
  }

  /** Conservation in every reachable state of every interleaving: every emitted event was
      dropped at admission, has a finished sink call, or is pending; pending exceeds queued by
      at most one; the queue never overflows; and the ring holds the most recent events. */
  lemma Conservation(states: seq<Recorder>, steps: seq<Step>, maxEvents: nat, maxQueued: nat, i: nat)
    requires IsRun(states, steps, maxEvents, maxQueued, true)
    requires i < |states|
    ensures var r := states[i];
            && !r.overflow
            && 0 <= r.queued <= maxQueued
            && r.pending - r.queued in {0, 1}
            && r.emitted == r.sinkDropped + r.finished + r.pending
            && r.events == Ring(maxEvents, r.log)
            && r.emitted - |r.events| == (if |r.log| <= maxEvents then 0 else |r.log| - maxEvents)
  {
    var waiting := RunSound(states, steps, maxEvents, maxQueued, true, i);
  }

  /** No event is lost or reordered on its way to the sink: what the sink was called with is
      always a prefix of what was admitted, and once the worker has stopped it is all of it. */
  lemma EveryAdmittedEventReachesTheSink(
    states: seq<Recorder>, steps: seq<Step>, maxEvents: nat, maxQueued: nat, i: nat)
    requires IsRun(states, steps, maxEvents, maxQueued, true)
    requires i < |states|
    ensures states[i].called <= states[i].admitted <= states[|states| - 1].admitted
    ensures states[i].worker.Stopped? ==>
      && states[i].called == states[i].admitted == states[|states| - 1].admitted
      && states[i].pending == 0 && states[i].queue == []
  {
    var waiting := RunSound(states, steps, maxEvents, maxQueued, true, i);
    AdmissionGrows(states, steps, maxEvents, maxQueued, i, |states| - 1);
  }

  lemma {:induction false} AdmissionGrows(states: seq<Recorder>, steps: seq<Step>, maxEvents: nat, maxQueued: nat,
                                          i: nat, j: nat)
    requires IsRun(states, steps, maxEvents, maxQueued, true)
    requires i <= j < |states|
    ensures states[i].admitted <= states[j].admitted
    ensures states[i].closed ==> states[j].closed && states[i].admitted == states[j].admitted
    decreases j
  {
    if i < j {
      AdmissionGrows(states, steps, maxEvents, maxQueued, i, j - 1);
      assert states[j] == Next(states[j - 1], steps[j - 1]);
    }
  }

  /** The sentinel is put at most once over a run, and nothing is admitted once a closer has
      passed its lock region: every admitted event is ahead of the sentinel. */
  lemma SentinelOnceAndLast(states: seq<Recorder>, steps: seq<Step>, maxEvents: nat, maxQueued: nat, i: nat, j: nat)
    requires IsRun(states, steps, maxEvents, maxQueued, true)
    requires i < j < |steps|
    requires steps[i] == PutSentinel
    ensures steps[j] != PutSentinel
    ensures states[j].admitted == states[i].admitted
  {
    var waiting := RunSound(states, steps, maxEvents, maxQueued, true, i);
    AdmissionGrows(states, steps, maxEvents, maxQueued, i, j);
    NoMoreOwed(states, steps, maxEvents, maxQueued, i + 1, j);
  }

  lemma {:induction false} NoMoreOwed(states: seq<Recorder>, steps: seq<Step>, maxEvents: nat, maxQueued: nat,
                                      i: nat, j: nat)
    requires IsRun(states, steps, maxEvents, maxQueued, true)
    requires i <= j < |states|
    requires states[i].stopEnqueued && states[i].owedSentinels == 0
    ensures states[j].stopEnqueued && states[j].owedSentinels == 0
    decreases j
  {
    if i < j {
      NoMoreOwed(states, steps, maxEvents, maxQueued, i, j - 1);
      assert states[j] == Next(states[j - 1], steps[j - 1]);
    }
  }

  // ---- the worker finishes ----

  /** Steps the worker still has to take before it stops, when the sentinel is in the queue. */
  function Remaining(r: Recorder): nat {
    5 * |r.queue| + match r.worker
      case Waiting => 0
      case Taken(_) => 4
      case Calling(_) => 3
      case Raised(_) => 2
      case Returning(_) => 1
      case Stopped => 0
  }

  predicate WorkerStep(s: Step) {
    s.Take? || s.LowerQueued? || s.SinkReturns? || s.SinkRaises? || s.CountFailure? || s.LowerPending?
  }

  /** Once the sentinel is put, the worker is never stuck before stopping, whatever the sink
      does every worker step brings it strictly closer, and no other thread's step moves it
      away: in every fair schedule it stops, by then with every admitted event handed over. */
  lemma WorkerFinishes(r: Recorder, waiting: seq<Event>)
    requires Sound(r, waiting) && r.hasSink
    requires r.stopEnqueued && r.owedSentinels == 0
    ensures r.worker.Stopped? || exists s :: WorkerStep(s) && Enabled(r, s)
    ensures forall s :: WorkerStep(s) && Enabled(r, s) ==> Remaining(Next(r, s)) < Remaining(r)
    ensures forall s :: !WorkerStep(s) && Enabled(r, s) ==> Remaining(Next(r, s)) == Remaining(r)
  {
    if !r.worker.Stopped? {
      var s := match r.worker
        case Waiting => Take
        case Taken(_) => LowerQueued
        case Calling(_) => SinkReturns
        case Raised(_) => CountFailure
        case _ => LowerPending;
      assert WorkerStep(s) && Enabled(r, s);
    }
  }

  /** `flush` may report success exactly when no admitted event is still on its way. */
  lemma FlushMeansDelivered(states: seq<Recorder>, steps: seq<Step>, maxEvents: nat, maxQueued: nat, i: nat)
    requires IsRun(states, steps, maxEvents, maxQueued, true)
    requires i < |states|
    ensures states[i].pending == 0 <==> states[i].called == states[i].admitted && AtSink(states[i].worker) == 0
  {
    var waiting := RunSound(states, steps, maxEvents, maxQueued, true, i);
    var r := states[i];
    assert |r.admitted| == |r.called| + |InHand(r.worker)| + |waiting|;
    if r.pending == 0 {
      assert r.called + [] + [] == r.called;
    }
  }

  // ---- exactly what is admitted, dropped, signalled and counted ----

  ghost predicate ClosedBefore(steps: seq<Step>, i: nat)
    requires i <= |steps|
  {
    exists k :: 0 <= k < i && steps[k] == CloseRegion
  }

  /** How many sink calls have raised so far. */
  function Raises(steps: seq<Step>): nat
    decreases |steps|
  {
    if steps == [] then 0
    else Raises(steps[..|steps| - 1]) + if steps[|steps| - 1] == SinkRaises then 1 else 0
  }

  /** The recorder is closed exactly when some closer has passed its lock region; exactly one sentinel is
      then put or owed; and the failures counted are the calls that raised, but for one just raised. */
  lemma {:induction false} ClosedExactly(
    states: seq<Recorder>, steps: seq<Step>, maxEvents: nat, maxQueued: nat, i: nat)
    requires IsRun(states, steps, maxEvents, maxQueued, true)
    requires i <= |steps|
    ensures states[i].closed <==> ClosedBefore(steps, i)
    ensures states[i].stopEnqueued <==> ClosedBefore(steps, i)
    ensures states[i].sinkFailed + (if states[i].worker.Raised? then 1 else 0) == Raises(steps[..i])
    ensures states[i].hasSink
  {
    if i > 0 {
      ClosedExactly(states, steps, maxEvents, maxQueued, i - 1);
      assert states[i] == Next(states[i - 1], steps[i - 1]);
      assert ClosedBefore(steps, i) <==> ClosedBefore(steps, i - 1) || steps[i - 1] == CloseRegion;
      assert steps[..i][..i - 1] == steps[..i - 1];
    }
  }

  /** An emitted event is always recorded, and is handed on to the worker exactly when no closer has
      passed its lock region and fewer than the limit wait for the worker; otherwise it is counted
      as dropped. */
  lemma AdmitsExactly(
    states: seq<Recorder>, steps: seq<Step>, maxEvents: nat, maxQueued: nat, i: nat, e: Event)
    requires IsRun(states, steps, maxEvents, maxQueued, true)
    requires i < |steps| && steps[i] == Emit(e)
    ensures var r, r' := states[i], states[i + 1];
            var admits := !ClosedBefore(steps, i) && |r.admitted| - |r.called| < maxQueued;
            && r'.log == r.log + [e]
            && r'.admitted == (if admits then r.admitted + [e] else r.admitted)
            && r'.sinkDropped == (if admits then r.sinkDropped else r.sinkDropped + 1)
            && r'.called == r.called && r'.worker == r.worker
  {
    var waiting := RunSound(states, steps, maxEvents, maxQueued, true, i);
    ClosedExactly(states, steps, maxEvents, maxQueued, i);
    var next := RunSound(states, steps, maxEvents, maxQueued, true, i + 1);
  }

  /** Without a sink every event is recorded and none is handed on or counted as dropped. */
  lemma RecordsWithoutSink(r: Recorder, e: Event)
    requires !r.hasSink
    ensures var r' := Next(r, Emit(e));
            r'.log == r.log + [e] && r'.admitted == r.admitted && r'.sinkDropped == r.sinkDropped && r'.queue == r.queue
  {
  }

  /** The first closer, and only the first, owes the sentinel. */
  lemma FirstCloserSignals(states: seq<Recorder>, steps: seq<Step>, maxEvents: nat, maxQueued: nat, i: nat)
    requires IsRun(states, steps, maxEvents, maxQueued, true)
    requires i < |steps| && steps[i] == CloseRegion
    ensures states[i + 1].owedSentinels == states[i].owedSentinels + (if ClosedBefore(steps, i) then 0 else 1)
    ensures states[i + 1].closed && !ClosedBefore(steps, i) ==> Enabled(states[i + 1], PutSentinel)
  {
    ClosedExactly(states, steps, maxEvents, maxQueued, i);
    var waiting := RunSound(states, steps, maxEvents, maxQueued, true, i);
  }
}
