/** One managed media session (session.py): which provider and control events reach the
    product, and how it ends. Every stretch of code between two real suspensions is one step. */
module Session {
  import opened Common
  import opened SessionEvents
  import Q = SessionQueue
  import B = ResponseBook
  import T = ToolCalls

  /** What is fixed for a session. Whether tool arguments satisfy their schema is opaque here. */
  datatype Config = Config(
    limits: Q.Limits, input: Q.InputLimits, generation: int, hasDispatcher: bool, invalid: Event -> bool)

  /** What happened, in order: the enqueued events among the facts they depend on. */
  datatype Mark =
    | Enqueued(event: Event)
    | Introduced(response: Id)
    | ItemAdded(item: (Id, Id))
    | ContentAdded(content: Content)
    | ContentDone(done: Content)
    | CancelledLocally(cancelled: Id)
    | Dispatched(call: Id)

  datatype ClosePhase = NotClosing | AwaitingAck(closeId: Id, acked: bool) | CloseDone

  datatype State = State(
    queue: Q.Queue, input: Q.Input, book: B.Book, desk: T.Desk,
    owner: Option<(Initiator, Disposition)>, published: bool, closing: bool, phase: ClosePhase,
    ready: bool, current: bool, receiving: bool,
    seenEvents: set<Id>, contextPending: set<Id>, completedInputs: set<Id>, seenCalls: set<Id>,
    log: seq<Mark>)

  function Start(completedInputs: set<Id>, seenCalls: set<Id>): State {
    State(Q.EMPTY, Q.Input([], 0, 0), B.BLANK, T.BARE, None, false, false, NotClosing,
          false, true, true, {}, {}, completedInputs, seenCalls, [])
  }

  // ---- emitting and ending ----

  function Enqueue(s: State, q: Q.Queue, e: Event): State {
    s.(queue := q, log := s.log + [Enqueued(e)])
  }

  function EmitTerminal(c: Config, s: State, e: Event): State {
    Enqueue(s, Q.PutTerminal(c.limits, s.queue, e), e)
  }

  /** `_finish_terminal`: only the first claimant gets to end the session. */
  function FinishTerminal(c: Config, s: State, e: Event, owner: (Initiator, Disposition)): State {
    if s.owner.Some? then s else EmitTerminal(c, s.(owner := Some(owner)), e).(published := true)
  }

  function Severity(retryable: bool): Disposition {
    if retryable then Retryable else Fatal
  }

  function Fail(c: Config, s: State, code: ErrorCode, retryable: bool): State {
    FinishTerminal(c, s, SessionFailed(code, retryable), (Provider, Severity(retryable)))
  }

  /** How handling a provider event goes on: to the next stage, to the next event, or not at all. */
  datatype Flow = Go(state: State) | Done(state: State) | Stop(state: State)

  function Broken(c: Config, s: State): Flow {
    Stop(Fail(c, s, ProtocolError, false))
  }

  /** `_emit`, failing the session when the queue is full. */
  function Deliver(c: Config, s: State, e: Event): Flow {
    if Q.Fits(c.limits, s.queue, e) then Go(Enqueue(s, Q.Put(c.limits, s.queue, e), e))
    else Stop(Fail(c, s, Busy, false))
  }

  // ---- one decoded provider event ----

  datatype ToolEcho = ToolEcho(call: Id, output: string, wellFormed: bool)

  datatype ItemDetail = ItemDetail(response: Id, item: Id, outputIndex: int, isFunctionCall: bool)

  /** What adapters decode to: only the control channel speaks of a closed session. */
  type AdapterEvent = e: Event | !e.SessionClosed? witness SessionReady

  datatype Decoded = Decoded(
    eventId: Id, events: seq<AdapterEvent>, providerReady: bool, acknowledged: bool,
    response: Option<Id>, item: Option<(Id, Id)>, detail: Option<ItemDetail>, content: Option<Content>,
    completedItem: Option<(Id, Id)>, completedContent: Option<Content>,
    echo: Option<ToolEcho>, toolCall: Option<(Id, Id, int, Id)>, rejected: Option<Id>)

  function ReadyStage(c: Config, s: State, d: Decoded): Flow {
    if d.providerReady && !s.ready then Deliver(c, s.(ready := true), SessionReady)
    else if !s.ready && !d.acknowledged then Broken(c, s)
    else Go(s)
  }

  function ResponseStage(c: Config, s: State, d: Decoded): Flow {
    match d.response
    case None => Go(s)
    case Some(r) =>
      if !B.MayIntroduce(s.book, r) then Broken(c, s)
      else Go(s.(book := B.Introduce(s.book, r), desk := T.ResponseStarts(s.desk), log := s.log + [Introduced(r)]))
  }

  function ItemStage(c: Config, s: State, d: Decoded): Flow {
    match d.item
    case None => Go(s)
    case Some(item) =>
      if item.0 !in s.book.responses || item in s.book.items then Broken(c, s)
      else
        var s1 := s.(book := s.book.(items := s.book.items + {item}), log := s.log + [ItemAdded(item)]);
        match d.detail
        case None => Broken(c, s1)
        case Some(detail) =>
          if (detail.response, detail.item) != item then Broken(c, s1)
          else if detail.isFunctionCall then
            Go(s1.(book := s1.book.(functionItems := s1.book.functionItems + {(item.0, item.1, detail.outputIndex)})))
          else Go(s1)
  }

  function ContentStage(c: Config, s: State, d: Decoded): Flow {
    match d.content
    case None => Go(s)
    case Some(content) =>
      if (content.response, content.item) !in s.book.items || content in s.book.contents then Broken(c, s)
      else Go(s.(book := s.book.(contents := s.book.contents + {content}), log := s.log + [ContentAdded(content)]))
  }

  function EchoStage(c: Config, s: State, d: Decoded): Flow {
    match d.echo
    case None => Go(s)
    case Some(echo) =>
      match T.Ack(s.desk, echo.call, echo.output, echo.wellFormed)
      case None => Broken(c, s)
      case Some(desk) => Go(s.(desk := desk))
  }

  /** Completions are checked before the events are delivered and recorded after. */
  function CompletionCheck(c: Config, s: State, d: Decoded): Flow {
    if d.completedContent.Some?
       && (d.completedContent.value !in s.book.contents || d.completedContent.value in s.book.completedContents)
    then Broken(c, s)
    else if d.completedItem.Some?
       && (d.completedItem.value !in s.book.items || d.completedItem.value in s.book.completedItems)
    then Broken(c, s)
    else Go(s)
  }

  function Complete(s: State, d: Decoded): State {
    var s1 := match d.completedContent
      case None => s
      case Some(content) =>
        s.(book := s.book.(completedContents := s.book.completedContents + {content}),
           log := s.log + [ContentDone(content)]);
    match d.completedItem
    case None => s1
    case Some(item) => s1.(book := s1.book.(completedItems := s1.book.completedItems + {item}))
  }

  function ToolCallEvent(c: Config, s: State, d: Decoded, e: Event): Flow
    requires e.ToolCallRequested?
  {
    if d.toolCall.None? then Broken(c, s)
    else
      var (r, item, index, call) := d.toolCall.value;
      if r != e.toolResponse || call != e.call || r !in s.book.responses || r in s.book.terminal
         || (r, item, index) !in s.book.functionItems || e.generation !in {0, c.generation}
         || e.call in s.desk.tools
      then Broken(c, s)
      else if e.call in s.seenCalls then Go(s)
      else
        var s1 := s.(desk := T.Open(s.desk, e.call), seenCalls := s.seenCalls + {e.call});
        var e1 := e.(generation := c.generation);
        var invalid := c.invalid(e1);
        var s2 := if c.hasDispatcher && !invalid then s1.(log := s1.log + [Dispatched(e.call)]) else s1;
        if invalid then Go(s2) else Deliver(c, s2, e1)
  }

  function OutputEvent(c: Config, s: State, e: Event): Flow
    requires e.Output?
  {
    var r := e.content.response;
    if r in s.book.terminal || r in s.book.cancelled then Go(s)
    else if r !in s.book.responses || e.content !in s.book.contents then Broken(c, s)
    else if e.content in s.book.completedContents then Go(s)
    else Deliver(c, s, e)
  }

  function FinishedEvent(c: Config, s: State, e: Event, terminalBatch: bool): Flow
    requires e.ResponseFinished?
  {
    var r := e.response;
    var e1 := if e.status == StatusIncomplete && r in s.book.cancelled then e.(status := StatusCancelled) else e;
    if r !in s.book.responses then Broken(c, s)
    else if r in s.book.terminal then Go(s)
    else
      var s1 := s.(book := s.book.(terminal := s.book.terminal + {r}));
      if terminalBatch then Go(EmitTerminal(c, s1, e1)) else Deliver(c, s1, e1)
  }

  function ApplyEvent(c: Config, s: State, d: Decoded, terminalBatch: bool, e: AdapterEvent): Flow {
    match e
    case TranscriptCompleted(turn, tracked, _) =>
      if tracked && turn in s.completedInputs then Go(s)
      else Deliver(c, if tracked then s.(completedInputs := s.completedInputs + {turn}) else s, e)
    case ToolCallRequested(_, _, _, _) => ToolCallEvent(c, s, d, e)
    case Output(_, _, _) => OutputEvent(c, s, e)
    case ResponseFinished(_, _, _) => FinishedEvent(c, s, e, terminalBatch)
    case SessionFailed(_, retryable) => Stop(FinishTerminal(c, s, e, (Provider, Severity(retryable))))
    case _ => Deliver(c, s, e)
  }

  function ApplyEvents(c: Config, s: State, d: Decoded, terminalBatch: bool, events: seq<AdapterEvent>): Flow
    decreases |events|
  {
    if events == [] then Go(s)
    else
      var f := ApplyEvent(c, s, d, terminalBatch, events[0]);
      if f.Go? then ApplyEvents(c, f.state, d, terminalBatch, events[1..]) else f
  }

  predicate TerminalBatch(d: Decoded) {
    exists i :: 0 <= i < |d.events| && d.events[i].SessionFailed?
  }

  function Bookkeeping(c: Config, s: State, d: Decoded): Flow {
    var f1 := ResponseStage(c, s, d);
    if !f1.Go? then f1 else
    var f2 := ItemStage(c, f1.state, d);
    if !f2.Go? then f2 else
    var f3 := ContentStage(c, f2.state, d);
    if !f3.Go? then f3 else
    var f4 := EchoStage(c, f3.state, d);
    if !f4.Go? then f4 else
    CompletionCheck(c, f4.state, d)
  }

  /** `_apply`: Done stands for its True, Stop for its False. */
  function Apply(c: Config, s: State, d: Decoded): Flow {
    if !s.current then Done(s)
    else if d.rejected.Some? && d.rejected.value in s.contextPending then Done(s)
    else
      var f1 := ReadyStage(c, s, d);
      if !f1.Go? then f1
      else if d.acknowledged then Done(f1.state)
      else
        var f2 := Bookkeeping(c, f1.state, d);
        if !f2.Go? then f2
        else
          var f3 := ApplyEvents(c, f2.state, d, TerminalBatch(d), d.events);
          if !f3.Go? then f3 else Done(Complete(f3.state, d))
  }

  // ---- the receive loop ----

  datatype Control =
    | Expiring(tag: nat)
    | Errored(code: ErrorCode, retryable: bool)
    | WasClosed(reason: nat, initiator: Initiator, disposition: Disposition, related: Option<Id>)

  /** What one turn of the receive loop gets, decoded or not. */
  datatype Payload =
    | TransportError(code: ErrorCode, retryable: bool)
    | Eof
    | BadControl(code: ErrorCode, retryable: bool)
    | Controlled(control: Control)
    | BadProvider(code: ErrorCode, retryable: bool)
    | Provided(decoded: Decoded)

  /** The loop goes on only until a terminal is published; `Returned` leaves it. */
  function Continued(s: State): State {
    s.(receiving := !s.published)
  }

  function Returned(s: State): State {
    s.(receiving := false)
  }

  /** The acknowledgement a controlled close waits for. */
  predicate AcksClose(s: State, control: Control) {
    && control.WasClosed? && s.phase.AwaitingAck?
    && control.related == Some(s.phase.closeId)
    && control.initiator == Client && control.disposition == Clean
  }

  /** One turn of the receive loop. */
  function Receive(c: Config, s: State, p: Payload): State
    requires s.receiving
  {
    if s.closing then ReceiveWhileClosing(s, p)
    else match p
      case TransportError(code, retryable) => Returned(Fail(c, s, code, retryable))
      case Eof => Returned(Fail(c, s, Unavailable, true))
      case _ =>
        if !s.current then Continued(s)
        else match p
          case BadControl(code, retryable) => Returned(Fail(c, s, code, retryable))
          case BadProvider(code, retryable) => Returned(Fail(c, s, code, retryable))
          case Controlled(control) => ReceiveControl(c, s, control)
          case Provided(d) => ReceiveProvided(c, s, d)
          case _ => s
  }

  /** Nothing is decoded into events any more; only the close acknowledgement counts. */
  function ReceiveWhileClosing(s: State, p: Payload): State {
    match p
    case Eof => Returned(s)
    case Controlled(control) =>
      if AcksClose(s, control) then Continued(s.(phase := AwaitingAck(s.phase.closeId, true))) else Continued(s)
    case _ => Continued(s)
  }

  function ReceiveControl(c: Config, s: State, control: Control): State {
    match control
    case Errored(code, retryable) =>
      Returned(FinishTerminal(c, s, SessionFailed(code, retryable), (Relay, Severity(retryable))))
    case WasClosed(reason, initiator, disposition, related) =>
      Returned(FinishTerminal(c, s, SessionClosed(reason, initiator, disposition, related), (initiator, disposition)))
    case Expiring(tag) =>
      var f := Deliver(c, s, Passed(tag));
      if f.Go? then Continued(f.state) else Returned(f.state)
  }

  function ReceiveProvided(c: Config, s: State, d: Decoded): State {
    if d.eventId in s.seenEvents then Continued(s)
    else
      var f := Apply(c, s.(seenEvents := s.seenEvents + {d.eventId}), d);
      if f.Stop? then Returned(f.state) else Continued(f.state)
  }

  // ---- what callers do ----

  predicate Active(s: State) {
    s.owner.None? && !s.closing && s.current
  }

  /** `cancel_response` up to its send. */
  function CancelResponse(s: State): State {
    if !Active(s) then s
    else match B.Current(s.book.order, s.book.terminal)
      case None => s
      case Some(r) => s.(book := B.Cancel(s.book), log := s.log + [CancelledLocally(r)])
  }

  /** `_controlled_close` up to its wait for the acknowledgement. */
  function BeginClose(s: State, closeId: Id): State {
    if !s.phase.NotClosing? then s
    else if s.owner.Some? then s.(phase := CloseDone)
    else s.(closing := true, owner := Some((Client, Clean)), phase := AwaitingAck(closeId, false))
  }

  /** The rest of `_controlled_close`, once acknowledged or timed out: the response under way is
      finished locally and the session is closed cleanly, in the words of the caller's reason. The
      acknowledgement counts only when it is heard: the close send came through and the wait for it
      was not given up. */
  function EndClose(c: Config, s: State, reason: nat, heard: bool): State
    requires s.phase.AwaitingAck?
  {
    var current := B.Current(s.book.order, s.book.terminal);
    var s1 := match current
      case None => s
      case Some(r) =>
        EmitTerminal(c, s, ResponseFinished(r, StatusCancelled, true))
        .(book := s.book.(terminal := s.book.terminal + {r}));
    var related := if s.phase.acked && heard then Some(s.phase.closeId) else None;
    EmitTerminal(c, s1, SessionClosed(reason, Client, Clean, related)).(published := true, phase := CloseDone)
  }

  datatype Op =
    | Receiving(payload: Payload)
    | ReceiverCancelled
    | Cancelling
    | SenderFails(code: ErrorCode, retryable: bool)   // a failing send or an expired wait ends the session
    | Closing(closeId: Id)
    | CloseEnds(reason: nat, heard: bool)
    | Consuming
    | LosingGeneration
    | ContextStarts(contextId: Id) | ContextEnds(contextId: Id)
    | Submitting(call: Id, output: string)
    | Beginning(call: Id, toolPayload: string)   // also when the session is over by now
    | Resuming(call: Id, progress: T.Progress)
    | AudioStarts(size: nat) | AudioEnds(index: nat)

  function Step(c: Config, s: State, op: Op): State {
    match op
    case Receiving(payload) => if s.receiving then Receive(c, s, payload) else s
    case ReceiverCancelled => if s.published then Returned(s) else s
    case Cancelling => CancelResponse(s)
    case SenderFails(code, retryable) => Fail(c, s, code, retryable)
    case Closing(closeId) => BeginClose(s, closeId)
    case CloseEnds(reason, heard) => if s.phase.AwaitingAck? then EndClose(c, s, reason, heard) else s
    case Consuming => if s.queue.events == [] then s else s.(queue := Q.Take(c.limits, s.queue))
    case LosingGeneration => s.(current := false)
    case ContextStarts(id) => if Active(s) && s.ready then s.(contextPending := s.contextPending + {id}) else s
    case ContextEnds(id) => s.(contextPending := s.contextPending - {id})
    case Submitting(call, output) => if !Active(s) then s else s.(desk := T.Next(s.desk, T.Submitting(call, output)))
    case Beginning(call, payload) => s.(desk := T.Next(s.desk, T.Beginning(call, payload)))
    case Resuming(call, progress) => s.(desk := T.Next(s.desk, T.Resuming(call, progress)))
    case AudioStarts(size) =>
      if !Active(s) || !s.ready then s
      else (match Q.StartSend(c.input, s.input, size) case Ok(i) => s.(input := i) case Err(_) => s)
    case AudioEnds(k) => if k < |s.input.sizes| then s.(input := Q.EndSend(s.input, k)) else s
  }

  function Run(c: Config, s: State, ops: seq<Op>): State
    decreases |ops|
  {
    if ops == [] then s else Run(c, Step(c, s, ops[0]), ops[1..])
  }
}
