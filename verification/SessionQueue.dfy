/** The events of a managed session, its bounded output queue and its input accounting
    (session.py). */
module SessionEvents {
  import opened Common

  datatype Initiator = Client | Provider | Relay | Network | TimeoutInitiator | Shutdown
  datatype Disposition = Clean | Retryable | Fatal | CleanExpired
  datatype Status = StatusCompleted | StatusCancelled | StatusIncomplete | StatusFailed
  datatype OutputKind = Text | AudioStarted | Audio | AudioCompleted

  /** One content part of one item of one response. */
  datatype Content = Content(response: Id, item: Id, outputIndex: int, contentIndex: int)

  /** Session events; whatever the session does not inspect is an opaque tag. */
  datatype Event =
    | SessionReady
    | Output(kind: OutputKind, content: Content, body: nat)
    | ResponseFinished(response: Id, status: Status, local: bool)
    | ToolCallRequested(toolResponse: Id, call: Id, arguments: nat, generation: int)
    | TranscriptCompleted(turn: Id, tracked: bool, transcript: nat)
    | SessionFailed(code: ErrorCode, retryable: bool)
    | SessionClosed(reason: nat, initiator: Initiator, disposition: Disposition, related: Option<Id>)
    | Passed(tag: nat)

  predicate IsTerminal(e: Event) {
    e.SessionFailed? || e.SessionClosed?
  }
}

module SessionQueue {
  import opened Common
  import opened SessionEvents

  /** The output limits, and the size the session accounts for an event. */
  datatype Limits = Limits(frames: nat, bytes: nat, size: Event -> nat)

  datatype Queue = Queue(
    events: seq<Event>, frames: int, bytes: int, terminalStarted: bool,
    taken: seq<Event>,      // what the consumer has taken
    admitted: seq<Event>)   // every event enqueued and not discarded

  const EMPTY := Queue([], 0, 0, false, [], [])

  function Put(l: Limits, q: Queue, e: Event): Queue {
    q.(events := q.events + [e], frames := q.frames + 1, bytes := q.bytes + l.size(e), admitted := q.admitted + [e])
  }

  /** `_emit`: refuse what would exceed a limit. */
  predicate Fits(l: Limits, q: Queue, e: Event) {
    q.frames + 1 <= l.frames && q.bytes + l.size(e) <= l.bytes
  }

  /** `_emit_terminal_safe`: the first event of the terminal sequence may discard the queue to
      get in, the later ones are put whatever the limits. */
  function PutTerminal(l: Limits, q: Queue, e: Event): Queue {
    if q.terminalStarted then Put(l, q, e)
    else if Fits(l, q, e) then Put(l, q.(terminalStarted := true), e)
    else Put(l, q.(terminalStarted := true, events := [], frames := 0, bytes := 0, admitted := q.taken), e)
  }

  function Max(a: int, b: int): int {
    if a >= b then a else b
  }

  /** One turn of the consumer, with the clamps it uses. */
  function Take(l: Limits, q: Queue): Queue
    requires q.events != []
  {
    q.(events := q.events[1..],
       frames := Max(0, q.frames - 1),
       bytes := Max(0, q.bytes - l.size(q.events[0])),
       taken := q.taken + [q.events[0]])
  }

  // ---- accounting ----

  function Size(l: Limits, es: seq<Event>): nat {
    if es == [] then 0 else l.size(es[0]) + Size(l, es[1..])
  }

  lemma {:induction false} SizeOfMore(l: Limits, es: seq<Event>, e: Event)
    ensures Size(l, es + [e]) == Size(l, es) + l.size(e)
  {
    if es == [] {
      assert [e][1..] == [];
    } else {
      SizeOfMore(l, es[1..], e);
      assert (es + [e])[1..] == es[1..] + [e];
    }
  }

  /** The counters are the queue's exact length and size, within the limits until the terminal
      sequence starts, and nothing admitted is lost. */
  ghost predicate Accounted(l: Limits, q: Queue) {
    && q.frames == |q.events|
    && q.bytes == Size(l, q.events)
    && (!q.terminalStarted ==> q.frames <= l.frames && q.bytes <= l.bytes)
    && q.admitted == q.taken + q.events
  }

  lemma PutAccounted(l: Limits, q: Queue, e: Event)
    requires Accounted(l, q)
    requires q.terminalStarted || Fits(l, q, e)
    ensures Accounted(l, Put(l, q, e))
  {
    SizeOfMore(l, q.events, e);
  }

  /** In terms of what waits: an event fits exactly when neither limit is exceeded with it. */
  lemma FitsExactly(l: Limits, q: Queue, e: Event)
    requires Accounted(l, q)
    ensures Fits(l, q, e) <==> |q.events| + 1 <= l.frames && Size(l, q.events) + l.size(e) <= l.bytes
  {
  }

  /** A terminal-sequence event always gets in, at the end. Only the first one, and only when it does
      not fit, discards what waits; nothing taken is lost then, and nothing at all otherwise. */
  lemma PutTerminalAccounted(l: Limits, q: Queue, e: Event)
    requires Accounted(l, q)
    ensures var q' := PutTerminal(l, q, e);
            && Accounted(l, q') && q'.terminalStarted
            && q'.events != [] && q'.events[|q'.events| - 1] == e
            && q'.taken == q.taken
            && (q.terminalStarted || Fits(l, q, e) ==> q'.admitted == q.admitted + [e])
            && (!q.terminalStarted && !Fits(l, q, e) ==> q'.admitted == q.taken + [e])
  {
    SizeOfMore(l, q.events, e);
    SizeOfMore(l, [], e);
    assert [] + [e] == [e];
  }

  /** The clamps never bite: taking an event takes exactly its size off. */
  lemma TakeAccounted(l: Limits, q: Queue)
    requires Accounted(l, q) && q.events != []
    ensures var q' := Take(l, q);
            && Accounted(l, q')
            && q'.frames == q.frames - 1 && q'.bytes == q.bytes - l.size(q.events[0])
            && q'.admitted == q.admitted
            && q'.taken == q.taken + [q.events[0]] && q'.events == q.events[1..]
  {
  }

  // ---- audio in flight to the provider ----

  /** Frames whose send is running, and the counters the session keeps of them. */
  datatype Input = Input(sizes: seq<nat>, frames: int, bytes: int)

  datatype InputLimits = InputLimits(event: nat, frames: nat, bytes: nat)

  function StartSend(l: InputLimits, i: Input, size: nat): Result<Input, ErrorCode> {
    if size == 0 || size % 2 != 0 || size > l.event then Err(InvalidRequest)
    else if i.frames + 1 > l.frames || i.bytes + size > l.bytes then Err(Busy)
    else Ok(Input(i.sizes + [size], i.frames + 1, i.bytes + size))
  }

  /** Exactly when audio is let out, in terms of the sends under way, and with which error it is
      refused otherwise. */
  lemma StartsExactly(l: InputLimits, i: Input, size: nat)
    requires InputAccounted(l, i)
    ensures var proper := 0 < size <= l.event && size % 2 == 0;
            var room := |i.sizes| + 1 <= l.frames && Sum(i.sizes) + size <= l.bytes;
            && (StartSend(l, i, size).Ok? <==> proper && room)
            && (proper && room ==> StartSend(l, i, size).value.sizes == i.sizes + [size])
            && (StartSend(l, i, size) == Err(InvalidRequest) <==> !proper)
            && (StartSend(l, i, size) == Err(Busy) <==> proper && !room)
  {
  }

  /** The `finally` of a send, however it ended. */
  function EndSend(i: Input, k: nat): Input
    requires k < |i.sizes|
  {
    Input(i.sizes[..k] + i.sizes[k + 1..], i.frames - 1, i.bytes - i.sizes[k])
  }

  ghost predicate InputAccounted(l: InputLimits, i: Input) {
    i.frames == |i.sizes| <= l.frames && i.bytes == Sum(i.sizes) <= l.bytes
  }

  /** In-flight counters always equal the running sends and stay within the limits. */
  lemma InputStaysAccounted(l: InputLimits, i: Input, size: nat, k: nat)
    requires InputAccounted(l, i)
    ensures StartSend(l, i, size).Ok? ==> InputAccounted(l, StartSend(l, i, size).value)
    ensures k < |i.sizes| ==> InputAccounted(l, EndSend(i, k))
  {
    SumAppend(i.sizes, [size]);
    assert Sum([size]) == size + Sum([size][1..]);
    if k < |i.sizes| {
      SumAppend(i.sizes[..k], i.sizes[k..]);
      SumAppend(i.sizes[..k], i.sizes[k + 1..]);
      assert i.sizes == i.sizes[..k] + i.sizes[k..];
      assert i.sizes[k..] == [i.sizes[k]] + i.sizes[k + 1..];
    }
  }

  // ---- as the session's own fields ----

  /** What waits for the product. */
  class OutputQueue {
    const limits: Limits
    var events: seq<Event>
    var queuedFrames: int
    var queuedBytes: int
    var terminalSequenceStarted: bool
    ghost var taken: seq<Event>
    ghost var admitted: seq<Event>

    ghost function Model(): Queue
      reads this
    {
      Queue(events, queuedFrames, queuedBytes, terminalSequenceStarted, taken, admitted)
    }

    constructor (limits: Limits)
      ensures this.limits == limits
      ensures Model() == EMPTY
    {
      this.limits := limits;
      events, queuedFrames, queuedBytes, terminalSequenceStarted, taken, admitted := [], 0, 0, false, [], [];
    }

    method Enqueue(e: Event)
      modifies this
      ensures Model() == Put(limits, old(Model()), e)
    {
      events := events + [e];
      queuedFrames := queuedFrames + 1;
      queuedBytes := queuedBytes + limits.size(e);
      admitted := admitted + [e];
    }

    /** `_emit`. */
    method Emit(e: Event) returns (ok: bool)
      modifies this
      ensures ok == Fits(limits, old(Model()), e)
      ensures Model() == if ok then Put(limits, old(Model()), e) else old(Model())
    {
      var size := limits.size(e);
      if queuedFrames + 1 > limits.frames {
        return false;
      }
      if queuedBytes + size > limits.bytes {
        return false;
      }
      Enqueue(e);
      return true;
    }

    /** `_emit_terminal_safe`. */
    method EmitTerminalSafe(e: Event)
      modifies this
      ensures Model() == PutTerminal(limits, old(Model()), e)
    {
      if !terminalSequenceStarted {
        terminalSequenceStarted := true;
        var ok := Emit(e);
        if ok {
          return;
        }
        while events != []
          invariant Model() == old(Model()).(terminalStarted := true, events := events)
          decreases |events|
        {
          events := events[1..];
        }
        queuedFrames, queuedBytes := 0, 0;
        admitted := taken;
      }
      Enqueue(e);
    }

    /** One turn of the consumer. */
    method Get() returns (e: Event)
      requires events != []
      modifies this
      ensures e == old(events[0])
      ensures Model() == Take(limits, old(Model()))
    {
      e := events[0];
      events := events[1..];
      taken := taken + [e];
      queuedFrames := Max(0, queuedFrames - 1);
      queuedBytes := Max(0, queuedBytes - limits.size(e));
    }
  }

  /** Audio on its way to the provider. */
  class InputGauge {
    const limits: InputLimits
    var pendingFrames: int
    var pendingBytes: int
    ghost var sending: seq<nat>

    ghost function Model(): Input
      reads this
    {
      Input(sending, pendingFrames, pendingBytes)
    }

    constructor (limits: InputLimits)
      ensures this.limits == limits
      ensures Model() == Input([], 0, 0)
    {
      this.limits := limits;
      pendingFrames, pendingBytes, sending := 0, 0, [];
    }

    method Start(size: nat) returns (outcome: Result<(), ErrorCode>)
      modifies this
      ensures match StartSend(limits, old(Model()), size)
              case Ok(i) => outcome == Ok(()) && Model() == i
              case Err(e) => outcome == Err(e) && Model() == old(Model())
    {
      if size == 0 || size % 2 != 0 {
        return Err(InvalidRequest);
      }
      if size > limits.event {
        return Err(InvalidRequest);
      }
      if pendingFrames + 1 > limits.frames {
        return Err(Busy);
      }
      if pendingBytes + size > limits.bytes {
        return Err(Busy);
      }
      pendingFrames := pendingFrames + 1;
      pendingBytes := pendingBytes + size;
      sending := sending + [size];
      return Ok(());
    }

    /** The `finally` of the k-th running send. */
    method End(ghost k: nat, size: nat)
      requires k < |sending| && sending[k] == size
      modifies this
      ensures Model() == EndSend(old(Model()), k)
    {
      pendingFrames := pendingFrames - 1;
      pendingBytes := pendingBytes - size;
      sending := sending[..k] + sending[k + 1..];
    }
  }
}
