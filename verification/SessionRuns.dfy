/** What holds over whole runs of a managed session: how it ends, what reaches the product and in
    which order, and what is never forgotten (session.py). */
module SessionRuns {
  import opened Common
  import opened SessionEvents
  import opened Session
  import opened SessionSafety
  import Q = SessionQueue
  import B = ResponseBook
  import T = ToolCalls

  // ---- nothing is forgotten ----

  /** What no step ever takes back. */
  ghost predicate Follows(s: State, s': State) {
    && s.log <= s'.log
    && s.queue.taken <= s'.queue.taken
    && (s.queue.terminalStarted ==> s'.queue.terminalStarted && s.queue.admitted <= s'.queue.admitted)
    && (s.owner.Some? ==> s'.owner == s.owner) && (s.published ==> s'.published) && (s.closing ==> s'.closing)
    && Grows(s.book, s'.book)
    && s.seenEvents <= s'.seenEvents && s.seenCalls <= s'.seenCalls && s.completedInputs <= s'.completedInputs
    && T.Forward(s.desk, s'.desk)
    && (forall i :: |s.log| <= i < |s'.log| && s'.log[i].Dispatched? ==> s'.log[i].call !in s.seenCalls)
  }

  ghost predicate Grows(b: B.Book, b': B.Book) {
    && b.order <= b'.order
    && b.responses <= b'.responses && b.terminal <= b'.terminal && b.cancelled <= b'.cancelled
    && b.items <= b'.items && b.functionItems <= b'.functionItems && b.completedItems <= b'.completedItems
    && b.contents <= b'.contents && b.completedContents <= b'.completedContents
  }

  /** The newest mark is a terminal event. */
  predicate EndsInTerminal(log: seq<Mark>) {
    log != [] && log[|log| - 1].Enqueued? && IsTerminal(log[|log| - 1].event)
  }

  /** Handling goes on only while nothing ends the session, and stops right where it ends. */
  ghost predicate Leads(s: State, f: Flow) {
    && Follows(s, f.state)
    && (!f.Stop? ==> f.state.published == s.published)
    && (f.Stop? ==> f.state.owner.Some?)
    && (!s.published && f.state.published ==> EndsInTerminal(f.state.log))
  }

  lemma Same(s: State)
    ensures Follows(s, s)
  {
  }

  lemma Through(a: State, b: State, c: State)
    requires Follows(a, b) && Follows(b, c)
    ensures Follows(a, c)
  {
    T.ForwardThrough(a.desk, b.desk, c.desk);
    assert forall i :: |a.log| <= i < |b.log| ==> b.log[i] == c.log[i];
  }

  /** After a change that ends nothing, the rest of the handling. */
  lemma LeadsThrough(a: State, b: State, f: Flow)
    requires Follows(a, b) && b.published == a.published && Leads(b, f)
    ensures Leads(a, f)
  {
    hide Follows, EndsInTerminal;
    Through(a, b, f.state);
  }

  /** Changes that leave the log, the queue and the end alone. */
  lemma Quietly(s: State, s': State)
    requires s'.log == s.log && s'.queue == s.queue && s'.owner == s.owner && s'.published == s.published
    requires s.closing ==> s'.closing
    requires Grows(s.book, s'.book) && T.Forward(s.desk, s'.desk)
    requires s.seenEvents <= s'.seenEvents && s.seenCalls <= s'.seenCalls && s.completedInputs <= s'.completedInputs
    ensures Follows(s, s')
  {
  }

  lemma Unmoved(s: State)
    ensures Grows(s.book, s.book) && T.Forward(s.desk, s.desk)
  {
  }

  /** Changes that note one fact. */
  lemma Noting(s: State, s': State, m: Mark)
    requires s'.log == s.log + [m] && !m.Dispatched?
    requires s'.queue == s.queue && s'.owner == s.owner && s'.published == s.published && s'.closing == s.closing
    requires Grows(s.book, s'.book) && T.Forward(s.desk, s'.desk)
    requires s'.seenEvents == s.seenEvents && s'.seenCalls == s.seenCalls && s'.completedInputs == s.completedInputs
    ensures Follows(s, s')
  {
  }

  lemma Ending(c: Config, s: State, e: Event, owner: (Initiator, Disposition))
    requires IsTerminal(e)
    ensures Leads(s, Stop(FinishTerminal(c, s, e, owner)))
  {
    Unmoved(s);
  }

  lemma Breaking(c: Config, s: State)
    ensures Leads(s, Broken(c, s))
  {
    Ending(c, s, SessionFailed(ProtocolError, false), (Provider, Fatal));
  }

  lemma Delivering(c: Config, s: State, e: Event)
    ensures Leads(s, Deliver(c, s, e)) && !Deliver(c, s, e).Done?
  {
    Unmoved(s);
    Ending(c, s, SessionFailed(Busy, false), (Provider, Fatal));
  }

  // ---- one decoded event ----

  lemma ReadyStageLeads(c: Config, s: State, d: Decoded)
    ensures Leads(s, ReadyStage(c, s, d))
  {
    hide Leads, Follows, Grows, Deliver, Broken;
    Unmoved(s);
    Quietly(s, s.(ready := true));
    Delivering(c, s.(ready := true), SessionReady);
    LeadsThrough(s, s.(ready := true), Deliver(c, s.(ready := true), SessionReady));
    Breaking(c, s);
    Staying(s);
  }

  lemma Staying(s: State)
    ensures Leads(s, Go(s)) && Leads(s, Done(s))
  {
    Same(s);
  }

  lemma GoingOn(s: State, s': State)
    requires Follows(s, s') && s'.published == s.published
    ensures Leads(s, Go(s'))
  {
  }

  lemma ResponseStageLeads(c: Config, s: State, d: Decoded)
    requires T.Orderly(s.desk)
    ensures Leads(s, ResponseStage(c, s, d))
    ensures T.Orderly(ResponseStage(c, s, d).state.desk)
  {
    hide T.ResponseStarts, T.Orderly, T.Forward, B.MayIntroduce, Broken;
    Staying(s);
    Breaking(c, s);
    T.ResponseStartsKeeps(s.desk);
    var f := ResponseStage(c, s, d);
    assert Broken(c, s).state.desk == s.desk by { EndingLeavesDesk(c, s); }
    if d.response.Some? && B.MayIntroduce(s.book, d.response.value) {
      Noting(s, f.state, Introduced(d.response.value));
    }
  }

  lemma EndingLeavesDesk(c: Config, s: State)
    ensures Broken(c, s).state.desk == s.desk
  {
  }

  lemma ItemStageLeads(c: Config, s: State, d: Decoded)
    ensures Leads(s, ItemStage(c, s, d)) && ItemStage(c, s, d).state.desk == s.desk
  {
    hide Leads, Follows, Broken, T.Forward;
    Staying(s);
    Breaking(c, s);
    EndingLeavesDesk(c, s);
    Unmoved(s);
    if d.item.Some? && d.item.value.0 in s.book.responses && d.item.value !in s.book.items {
      var item := d.item.value;
      var s1 := s.(book := s.book.(items := s.book.items + {item}), log := s.log + [ItemAdded(item)]);
      Noting(s, s1, ItemAdded(item));
      Breaking(c, s1);
      EndingLeavesDesk(c, s1);
      LeadsThrough(s, s1, Broken(c, s1));
      GoingOn(s, s1);
      if d.detail.Some? {
        var functionItem := (item.0, item.1, d.detail.value.outputIndex);
        var s2 := s1.(book := s1.book.(functionItems := s1.book.functionItems + {functionItem}));
        Noting(s, s2, ItemAdded(item));
        GoingOn(s, s2);
      }
    }
  }

  lemma ContentStageLeads(c: Config, s: State, d: Decoded)
    ensures Leads(s, ContentStage(c, s, d)) && ContentStage(c, s, d).state.desk == s.desk
  {
    hide Leads, Follows, Broken, T.Forward;
    Staying(s);
    Breaking(c, s);
    EndingLeavesDesk(c, s);
    Unmoved(s);
    if d.content.Some? && ContentStage(c, s, d) != Broken(c, s) {
      Noting(s, ContentStage(c, s, d).state, ContentAdded(d.content.value));
      GoingOn(s, ContentStage(c, s, d).state);
    }
  }

  lemma EchoStageLeads(c: Config, s: State, d: Decoded)
    requires T.Orderly(s.desk)
    ensures Leads(s, EchoStage(c, s, d))
  {
    hide Leads, Follows, Broken, T.Ack, T.Forward, T.Orderly;
    Staying(s);
    Breaking(c, s);
    Unmoved(s);
    if d.echo.Some? {
      T.AckKeeps(s.desk, d.echo.value.call, d.echo.value.output, d.echo.value.wellFormed);
      if T.Ack(s.desk, d.echo.value.call, d.echo.value.output, d.echo.value.wellFormed).Some? {
        Quietly(s, EchoStage(c, s, d).state);
        GoingOn(s, EchoStage(c, s, d).state);
      }
    }
  }

  lemma GoLeads(s: State, f: Flow, f': Flow)
    requires Leads(s, f) && f.Go? && Leads(f.state, f')
    ensures Leads(s, f')
  {
    hide Follows, EndsInTerminal;
    Through(s, f.state, f'.state);
  }

  lemma BookkeepingLeads(c: Config, s: State, d: Decoded)
    requires T.Orderly(s.desk)
    ensures Leads(s, Bookkeeping(c, s, d))
  {
    hide Leads, ResponseStage, ItemStage, ContentStage, EchoStage, CompletionCheck, T.Orderly;
    ResponseStageLeads(c, s, d);
    var f1 := ResponseStage(c, s, d);
    if f1.Go? {
      ItemStageLeads(c, f1.state, d);
      var f2 := ItemStage(c, f1.state, d);
      if f2.Go? {
        GoLeads(s, f1, f2);
        ContentStageLeads(c, f2.state, d);
        var f3 := ContentStage(c, f2.state, d);
        if f3.Go? {
          GoLeads(s, f2, f3);
          EchoStageLeads(c, f3.state, d);
          var f4 := EchoStage(c, f3.state, d);
          if f4.Go? {
            GoLeads(s, f3, f4);
            CompletionLeads(c, f4.state, d);
            GoLeads(s, f4, CompletionCheck(c, f4.state, d));
          } else {
            GoLeads(s, f3, f4);
          }
        } else {
          GoLeads(s, f2, f3);
        }
      } else {
        GoLeads(s, f1, f2);
      }
    }
  }

  lemma CompletionLeads(c: Config, s: State, d: Decoded)
    ensures Leads(s, CompletionCheck(c, s, d))
  {
    hide Leads, Broken;
    Staying(s);
    Breaking(c, s);
  }

  lemma CompleteFollows(s: State, d: Decoded)
    ensures Follows(s, Complete(s, d)) && Complete(s, d).published == s.published
  {
    hide Follows, T.Forward;
    Same(s);
    var s1 := s;
    if d.completedContent.Some? {
      var content := d.completedContent.value;
      s1 := s.(book := s.book.(completedContents := s.book.completedContents + {content}),
               log := s.log + [ContentDone(content)]);
      Unmoved(s);
      Noting(s, s1, ContentDone(content));
    }
    if d.completedItem.Some? {
      Unmoved(s1);
      Quietly(s1, Complete(s, d));
      Through(s, s1, Complete(s, d));
    }
  }

  lemma ToolCallEventLeads(c: Config, s: State, d: Decoded, e: Event)
    requires e.ToolCallRequested? && T.Orderly(s.desk)
    ensures Leads(s, ToolCallEvent(c, s, d, e))
  {
    hide Leads, Broken, Deliver, T.Open, T.Forward, T.Orderly, Grows;
    Staying(s);
    Breaking(c, s);
    var call := e.call;
    if call !in s.desk.tools && call !in s.seenCalls {
      T.OpenKeeps(s.desk, call);
      Unmoved(s);
      var s1 := s.(desk := T.Open(s.desk, call), seenCalls := s.seenCalls + {call});
      var s2 := s1.(log := s.log + [Dispatched(call)]);
      Quietly(s, s1);
      assert Follows(s, s2);
      hide Follows;
      Delivering(c, s1, e.(generation := c.generation));
      Delivering(c, s2, e.(generation := c.generation));
      LeadsThrough(s, s1, Deliver(c, s1, e.(generation := c.generation)));
      LeadsThrough(s, s2, Deliver(c, s2, e.(generation := c.generation)));
      GoingOn(s, s1);
      GoingOn(s, s2);
    }
  }

  lemma FinishedEventLeads(c: Config, s: State, e: Event, terminalBatch: bool)
    requires e.ResponseFinished?
    ensures Leads(s, FinishedEvent(c, s, e, terminalBatch))
  {
    hide Leads, Broken, Deliver, T.Forward, EmitTerminal, Follows;
    Staying(s);
    Breaking(c, s);
    Unmoved(s);
    var r := e.response;
    var e1 := if e.status == StatusIncomplete && r in s.book.cancelled then e.(status := StatusCancelled) else e;
    var s1 := s.(book := s.book.(terminal := s.book.terminal + {r}));
    Quietly(s, s1);
    EmittingFollows(c, s1, e1);
    Through(s, s1, EmitTerminal(c, s1, e1));
    Delivering(c, s1, e1);
    LeadsThrough(s, s1, Deliver(c, s1, e1));
    GoingOn(s, EmitTerminal(c, s1, e1));
  }

  lemma ApplyEventLeads(c: Config, s: State, d: Decoded, terminalBatch: bool, e: AdapterEvent)
    requires T.Orderly(s.desk)
    ensures Leads(s, ApplyEvent(c, s, d, terminalBatch, e))
  {
    hide Leads, Broken, Deliver, FinishTerminal, ToolCallEvent, FinishedEvent, T.Orderly, T.Forward;
    Staying(s);
    Breaking(c, s);
    Delivering(c, s, e);
    match e
    case TranscriptCompleted(turn, _, _) =>
      var s1 := s.(completedInputs := s.completedInputs + {turn});
      Unmoved(s);
      Quietly(s, s1);
      Delivering(c, s1, e);
      LeadsThrough(s, s1, Deliver(c, s1, e));
    case ToolCallRequested(_, _, _, _) => ToolCallEventLeads(c, s, d, e);
    case Output(_, _, _) =>
    case ResponseFinished(_, _, _) => FinishedEventLeads(c, s, e, terminalBatch);
    case SessionFailed(_, retryable) => Ending(c, s, e, (Provider, Severity(retryable)));
    case _ =>
  }

  lemma {:induction false} ApplyEventsLeads(
    c: Config, s: State, d: Decoded, terminalBatch: bool, events: seq<AdapterEvent>)
    requires Sound(c, s)
    ensures Leads(s, ApplyEvents(c, s, d, terminalBatch, events))
    decreases |events|
  {
    hide Leads, Sound, ApplyEvent;
    Staying(s);
    if events != [] {
      var f := ApplyEvent(c, s, d, terminalBatch, events[0]);
      PartsOf(c, s);
      ApplyEventLeads(c, s, d, terminalBatch, events[0]);
      if f.Go? {
        ApplyEventSound(c, s, d, terminalBatch, events[0]);
        ApplyEventsLeads(c, f.state, d, terminalBatch, events[1..]);
        GoLeads(s, f, ApplyEvents(c, f.state, d, terminalBatch, events[1..]));
      }
    }
  }

  lemma ApplyLeads(c: Config, s: State, d: Decoded)
    requires Sound(c, s)
    ensures Leads(s, Apply(c, s, d))
  {
    hide Leads, Sound, ReadyStage, Bookkeeping, ApplyEvents, Complete;
    Staying(s);
    ReadyStageLeads(c, s, d);
    ReadyStageSound(c, s, d);
    var f1 := ReadyStage(c, s, d);
    if f1.Go? {
      PartsOf(c, f1.state);
      BookkeepingLeads(c, f1.state, d);
      BookkeepingSound(c, f1.state, d);
      Staying(f1.state);
      GoLeads(s, f1, Done(f1.state));
      var f2 := Bookkeeping(c, f1.state, d);
      GoLeads(s, f1, f2);
      if f2.Go? {
        var f3 := ApplyEvents(c, f2.state, d, TerminalBatch(d), d.events);
        ApplyEventsLeads(c, f2.state, d, TerminalBatch(d), d.events);
        GoLeads(s, f2, f3);
        if f3.Go? {
          CompleteFollows(f3.state, d);
          DoneLeads(f3.state, Complete(f3.state, d));
          GoLeads(s, f3, Done(Complete(f3.state, d)));
        }
      }
    }
  }

  lemma DoneLeads(s: State, s': State)
    requires Follows(s, s') && s'.published == s.published
    ensures Leads(s, Done(s'))
  {
  }

  // ---- every step ----

  /** One turn of the receive loop forgets nothing, and the loop is left at once when it ends the
      session, whose terminal is then the newest mark. */
  lemma ReceiveFollows(c: Config, s: State, p: Payload)
    requires Sound(c, s) && s.receiving
    ensures Follows(s, Receive(c, s, p))
    ensures !s.published && Receive(c, s, p).published ==>
      !Receive(c, s, p).receiving && EndsInTerminal(Receive(c, s, p).log)
    ensures !Receive(c, s, p).receiving ==> Receive(c, s, p).owner.Some?
  {
    hide Sound, Follows, FinishTerminal, Deliver, Apply, EndsInTerminal, ReceiveProvided, ReceiveWhileClosing, Fail;
    OwnedAtTheEnd(c, s);
    Leaving(s, s);
    Same(s);
    if s.closing {
      ClosingFollows(s, p);
    } else {
      match p
      case TransportError(code, retryable) => Failing(c, s, code, retryable);
      case Eof => Failing(c, s, Unavailable, true);
      case BadControl(code, retryable) => Failing(c, s, code, retryable);
      case BadProvider(code, retryable) => Failing(c, s, code, retryable);
      case Controlled(Errored(code, retryable)) =>
        Ending(c, s, SessionFailed(code, retryable), (Relay, Severity(retryable)));
        Leaving(s, FinishTerminal(c, s, SessionFailed(code, retryable), (Relay, Severity(retryable))));
      case Controlled(WasClosed(reason, initiator, disposition, related)) =>
        var e := SessionClosed(reason, initiator, disposition, related);
        Ending(c, s, e, (initiator, disposition));
        Leaving(s, FinishTerminal(c, s, e, (initiator, disposition)));
      case Controlled(Expiring(tag)) =>
        Delivering(c, s, Passed(tag));
        Leaving(s, Deliver(c, s, Passed(tag)).state);
        EndStays(s, Deliver(c, s, Passed(tag)).state);
      case Provided(d) => ProvidedFollows(c, s, d);
    }
  }

  lemma OwnedAtTheEnd(c: Config, s: State)
    requires Sound(c, s)
    ensures s.closing || s.published ==> s.owner.Some?
  {
    hide Q.Accounted, Q.InputAccounted, B.WellKept, T.Orderly, Logged, Disciplined, Conserved;
  }

  /** Leaving or resuming the receive loop. */
  lemma Leaving(s: State, s': State)
    ensures Follows(s, s') ==> Follows(s, Returned(s')) && Follows(s, Continued(s'))
  {
  }

  lemma Failing(c: Config, s: State, code: ErrorCode, retryable: bool)
    ensures var s' := Returned(Fail(c, s, code, retryable));
            Follows(s, s') && (!s.published && s'.published ==> EndsInTerminal(s'.log)) && s'.owner.Some?
  {
    hide Follows;
    Ending(c, s, SessionFailed(code, retryable), (Provider, Severity(retryable)));
    Leaving(s, Fail(c, s, code, retryable));
  }

  lemma ClosingFollows(s: State, p: Payload)
    requires s.receiving && s.closing
    ensures var s' := ReceiveWhileClosing(s, p); Follows(s, s') && s'.published == s.published && s'.owner == s.owner
  {
    Unmoved(s);
  }

  lemma ProvidedFollows(c: Config, s: State, d: Decoded)
    requires Sound(c, s)
    ensures var s' := ReceiveProvided(c, s, d);
            && Follows(s, s')
            && (!s.published && s'.published ==> !s'.receiving && EndsInTerminal(s'.log))
            && (!s'.receiving ==> s'.owner.Some?)
  {
    hide Sound, Follows, Apply, EndsInTerminal, Grows, T.Forward;
    OwnedAtTheEnd(c, s);
    Leaving(s, s);
    Same(s);
    Unmoved(s);
    var s1 := s.(seenEvents := s.seenEvents + {d.eventId});
    PartsOf(c, s);
    QuietlySound(c, s, s1);
    Quietly(s, s1);
    ApplyLeads(c, s1, d);
    Through(s, s1, Apply(c, s1, d).state);
    Leaving(s, Apply(c, s1, d).state);
    EndStays(s, Apply(c, s1, d).state);
  }

  lemma BeginCloseFollows(s: State, closeId: Id)
    ensures Follows(s, BeginClose(s, closeId))
  {
    Unmoved(s);
  }

  lemma EmittingFollows(c: Config, s: State, e: Event)
    ensures Follows(s, EmitTerminal(c, s, e)) && EmitTerminal(c, s, e).published == s.published
  {
    Unmoved(s);
  }

  lemma FinishingLocallyFollows(c: Config, s: State, r: Id)
    ensures Follows(s, EmitTerminal(c, s, ResponseFinished(r, StatusCancelled, true))
                       .(book := s.book.(terminal := s.book.terminal + {r})))
  {
    Unmoved(s);
  }

  lemma EndCloseFollows(c: Config, s: State, reason: nat, heard: bool)
    requires s.phase.AwaitingAck?
    ensures Follows(s, EndClose(c, s, reason, heard))
  {
    hide Follows, B.Current, EmitTerminal;
    Same(s);
    var current := B.Current(s.book.order, s.book.terminal);
    var s1 := match current
      case None => s
      case Some(r) =>
        EmitTerminal(c, s, ResponseFinished(r, StatusCancelled, true))
        .(book := s.book.(terminal := s.book.terminal + {r}));
    if current.Some? {
      FinishingLocallyFollows(c, s, current.value);
    }
    var related := if s.phase.acked && heard then Some(s.phase.closeId) else None;
    var e := SessionClosed(reason, Client, Clean, related);
    EmittingFollows(c, s1, e);
    Through(s, s1, EmitTerminal(c, s1, e));
    Publishing(s, EmitTerminal(c, s1, e), CloseDone);
  }

  lemma Publishing(s: State, s': State, phase: ClosePhase)
    requires Follows(s, s')
    ensures Follows(s, s'.(published := true, phase := phase))
  {
  }

  lemma CancelFollows(s: State)
    ensures Follows(s, CancelResponse(s))
  {
    hide T.Forward, Follows;
    Unmoved(s);
    Same(s);
    if CancelResponse(s) != s {
      Noting(s, CancelResponse(s), CancelledLocally(B.Current(s.book.order, s.book.terminal).value));
    }
  }

  /** No step takes back anything of a session: what was enqueued, owned, published, finished,
      cancelled, completed or seen; tool calls move only forward; and a call is dispatched only
      when it was not seen before. */
  lemma StepFollows(c: Config, s: State, op: Op)
    requires Sound(c, s)
    ensures Follows(s, Step(c, s, op))
  {
    hide Sound, Follows, Grows, T.Forward, T.Next, T.Orderly, Receive, CancelResponse, Fail, BeginClose, EndClose,
         Q.Take, Q.StartSend, Q.EndSend, Returned;
    Same(s);
    Unmoved(s);
    Leaving(s, s);
    match op
    case Receiving(payload) => if s.receiving { ReceiveFollows(c, s, payload); }
    case Cancelling => CancelFollows(s);
    case SenderFails(code, retryable) => SenderFailing(c, s, code, retryable);
    case Closing(closeId) => BeginCloseFollows(s, closeId);
    case CloseEnds(reason, heard) => if s.phase.AwaitingAck? { EndCloseFollows(c, s, reason, heard); }
    case Consuming => if s.queue.events != [] { TakingFollows(c, s); }
    case Submitting(call, output) => DeskFollows(c, s, T.Submitting(call, output));
    case Beginning(call, payload) => DeskFollows(c, s, T.Beginning(call, payload));
    case Resuming(call, progress) => DeskFollows(c, s, T.Resuming(call, progress));
    case AudioStarts(_) => SoundsFollow(c, s, op);
    case AudioEnds(_) => SoundsFollow(c, s, op);
    case ReceiverCancelled =>
    case LosingGeneration => Quietly(s, s.(current := false));
    case ContextStarts(id) => Quietly(s, s.(contextPending := s.contextPending + {id}));
    case ContextEnds(id) => Quietly(s, s.(contextPending := s.contextPending - {id}));
  }

  lemma SoundsFollow(c: Config, s: State, op: Op)
    requires op.AudioStarts? || op.AudioEnds?
    ensures Follows(s, Step(c, s, op))
  {
    hide Q.StartSend, Q.EndSend, T.Forward, Grows;
    Unmoved(s);
  }

  lemma SenderFailing(c: Config, s: State, code: ErrorCode, retryable: bool)
    ensures Follows(s, Fail(c, s, code, retryable))
  {
    Ending(c, s, SessionFailed(code, retryable), (Provider, Severity(retryable)));
  }

  lemma DeskFollows(c: Config, s: State, step: T.Step)
    requires Sound(c, s)
    ensures Follows(s, s.(desk := T.Next(s.desk, step)))
  {
    hide Sound, Grows, T.Next, T.Forward, T.Orderly;
    PartsOf(c, s);
    Unmoved(s);
    T.NextKeeps(s.desk, step);
    Quietly(s, s.(desk := T.Next(s.desk, step)));
  }

  lemma TakingFollows(c: Config, s: State)
    requires s.queue.events != []
    ensures Follows(s, s.(queue := Q.Take(c.limits, s.queue)))
  {
    Unmoved(s);
  }

  lemma {:induction false} RunFollows(c: Config, s: State, ops: seq<Op>)
    requires Sound(c, s)
    ensures Sound(c, Run(c, s, ops)) && Follows(s, Run(c, s, ops))
    decreases |ops|
  {
    hide Sound, Follows, Step;
    Same(s);
    if ops != [] {
      StepSound(c, s, ops[0]);
      StepFollows(c, s, ops[0]);
      RunFollows(c, Step(c, s, ops[0]), ops[1..]);
      Through(s, Step(c, s, ops[0]), Run(c, s, ops));
    }
  }

  // ---- how a session ends ----

  /** Over every run at most one terminal is ever enqueued, one exactly when it is published. */
  lemma OneTerminal(c: Config, completedInputs: set<Id>, seenCalls: set<Id>, ops: seq<Op>)
    ensures var s := Run(c, Start(completedInputs, seenCalls), ops);
            && (forall i, j :: TerminalAt(s.log, i) && TerminalAt(s.log, j) ==> i == j)
            && (s.published <==> exists i :: TerminalAt(s.log, i))
  {
    hide Sound, Run;
    StartIsSound(c, completedInputs, seenCalls);
    RunSound(c, Start(completedInputs, seenCalls), ops);
    EndsOnceOf(c, Run(c, Start(completedInputs, seenCalls), ops));
  }

  lemma EndsOnceOf(c: Config, s: State)
    requires Sound(c, s)
    ensures EndsOnce(s)
  {
  }

  /** The receive loop enqueues nothing any more: it was left, or it only awaits the close
      acknowledgement, or it skips every payload because a newer session took over. */
  predicate ReceiverSilent(s: State) {
    s.closing || !s.receiving || !s.current
  }

  /** The end is decided, and nobody is left who could still enqueue anything. */
  ghost predicate Settled(s: State) {
    s.owner.Some? && ReceiverSilent(s) && !s.phase.AwaitingAck?
  }

  lemma SettledStays(c: Config, s: State, op: Op)
    requires Settled(s)
    ensures Settled(Step(c, s, op)) && Step(c, s, op).log == s.log
  {
    hide T.Next, Apply, Deliver;
  }

  lemma {:induction false} SettledForever(c: Config, s: State, ops: seq<Op>)
    requires Settled(s)
    ensures Run(c, s, ops).log == s.log
    decreases |ops|
  {
    hide Step, Settled;
    if ops != [] {
      SettledStays(c, s, ops[0]);
      SettledForever(c, Step(c, s, ops[0]), ops[1..]);
    }
  }

  /** In every run, when the receive loop ends the session, the terminal is the newest mark, and
      nothing is enqueued after it, whatever anyone does. */
  lemma NothingAfterTheReceiversTerminal(
    c: Config, completedInputs: set<Id>, seenCalls: set<Id>, before: seq<Op>, p: Payload, after: seq<Op>)
    ensures var s := Run(c, Start(completedInputs, seenCalls), before);
            s.receiving && !s.published && Receive(c, s, p).published ==>
              var s' := Receive(c, s, p);
              && s'.log != [] && TerminalAt(s'.log, |s'.log| - 1)
              && Run(c, s', after).log == s'.log
  {
    hide Receive, Step, Sound, Follows, Settled;
    var s := Run(c, Start(completedInputs, seenCalls), before);
    StartIsSound(c, completedInputs, seenCalls);
    RunSound(c, Start(completedInputs, seenCalls), before);
    if s.receiving && !s.published && Receive(c, s, p).published {
      ReceiveFollows(c, s, p);
      ReceiveSound(c, s, p);
      EndedIsSettled(c, Receive(c, s, p));
      SettledForever(c, Receive(c, s, p), after);
    }
  }

  lemma EndedIsSettled(c: Config, s: State)
    requires Sound(c, s) && s.published && ReceiverSilent(s)
    ensures Settled(s)
  {
    hide Q.Accounted, Q.InputAccounted, B.WellKept, T.Orderly, Logged, Disciplined, Conserved;
  }

  /** Behind a terminal that somebody else enqueued, the receive loop handles at most one more
      payload. */
  lemma OneMorePayload(c: Config, s: State, p: Payload, ops: seq<Op>)
    requires Sound(c, s) && s.receiving && s.published
    ensures Run(c, Receive(c, s, p), ops).log == Receive(c, s, p).log
  {
    hide Receive, Follows, Step, Sound, Settled;
    ReceiveFollows(c, s, p);
    ReceiveSound(c, s, p);
    EndStays(s, Receive(c, s, p));
    OnlyWhileUnpublished(c, s, p);
    EndedIsSettled(c, Receive(c, s, p));
    SettledForever(c, Receive(c, s, p), ops);
  }

  lemma OnlyWhileUnpublished(c: Config, s: State, p: Payload)
    requires s.receiving
    ensures Receive(c, s, p).receiving ==> !Receive(c, s, p).published
  {
    hide Apply, Deliver, FinishTerminal;
  }

  // ---- exactly when the terminal is the last event ----

  lemma {:induction false} RunInTwo(c: Config, s: State, before: seq<Op>, after: seq<Op>)
    ensures Run(c, s, before + after) == Run(c, Run(c, s, before), after)
    decreases |before|
  {
    hide Step;
    if before == [] {
      assert before + after == after;
    } else {
      assert (before + after)[1..] == before[1..] + after;
      RunInTwo(c, Step(c, s, before[0]), before[1..], after);
    }
  }

  /** A consumer can always empty the queue, changing nothing else. */
  lemma {:induction false} Drained(c: Config, s: State) returns (ops: seq<Op>)
    requires Q.Accounted(c.limits, s.queue)
    ensures var s' := Run(c, s, ops);
            s' == s.(queue := s'.queue) && s'.queue.events == [] && s'.queue.frames == 0 && s'.queue.bytes == 0
    decreases |s.queue.events|
  {
    if s.queue.events == [] {
      ops := [];
    } else {
      Q.TakeAccounted(c.limits, s.queue);
      var s1 := Step(c, s, Consuming);
      hide Q.Accounted;
      var rest := Drained(c, s1);
      ops := [Consuming] + rest;
      assert ops[1..] == rest;
    }
  }

  /** While the receive loop is not silent, the relay can still get one event in. */
  lemma OneMoreGetsIn(c: Config, s: State, tag: nat) returns (ops: seq<Op>)
    requires Sound(c, s) && !ReceiverSilent(s)
    requires c.limits.frames >= 1 && c.limits.size(Passed(tag)) <= c.limits.bytes
    ensures Published(Run(c, s, ops).log) == Published(s.log) + [Passed(tag)]
  {
    hide Sound, Published, Step, ReceiveProvided, ReceiveWhileClosing;
    PartsOf(c, s);
    var drain := Drained(c, s);
    var s1 := Run(c, s, drain);
    var receive := Receiving(Controlled(Expiring(tag)));
    ops := drain + [receive];
    RunInTwo(c, s, drain, [receive]);
    assert [receive][1..] == [];
    assert Run(c, s1, [receive]) == Step(c, s1, receive);
    assert Step(c, s1, receive) == ReceiveControl(c, s1, Expiring(tag)) by { ControlStep(c, s1, Expiring(tag)); }
    PublishedMore(s.log, Enqueued(Passed(tag)));
  }

  lemma ControlStep(c: Config, s: State, control: Control)
    requires !ReceiverSilent(s)
    ensures Step(c, s, Receiving(Controlled(control))) == ReceiveControl(c, s, control)
  {
    hide ReceiveControl, ReceiveProvided;
  }

  /** In every session that has ended, and however it ended: nothing is ever enqueued after this
      moment exactly when the receive loop is silent by now. (The limits let a control event into
      an empty queue.) */
  lemma TerminalIsLastExactly(
    c: Config, completedInputs: set<Id>, seenCalls: set<Id>, before: seq<Op>, tag: nat)
    requires c.limits.frames >= 1 && c.limits.size(Passed(tag)) <= c.limits.bytes
    ensures var s := Run(c, Start(completedInputs, seenCalls), before);
            s.published ==>
              && ((forall ops :: Published(Run(c, s, ops).log) == Published(s.log)) <==> ReceiverSilent(s))
              && ((forall ops :: Run(c, s, ops).log == s.log) <==> ReceiverSilent(s))
  {
    hide Sound, Step, Published, ReceiverSilent;
    var s := Run(c, Start(completedInputs, seenCalls), before);
    StartIsSound(c, completedInputs, seenCalls);
    RunSound(c, Start(completedInputs, seenCalls), before);
    if s.published {
      EndedExactly(c, s, tag);
    }
  }

  lemma EndedExactly(c: Config, s: State, tag: nat)
    requires Sound(c, s) && s.published
    requires c.limits.frames >= 1 && c.limits.size(Passed(tag)) <= c.limits.bytes
    ensures (forall ops :: Published(Run(c, s, ops).log) == Published(s.log)) <==> ReceiverSilent(s)
    ensures (forall ops :: Run(c, s, ops).log == s.log) <==> ReceiverSilent(s)
  {
    hide Sound, Run, Published, ReceiverSilent, Settled;
    if ReceiverSilent(s) {
      EndedIsSettled(c, s);
      forall ops ensures Run(c, s, ops).log == s.log {
        SettledForever(c, s, ops);
      }
    } else {
      var ops := OneMoreGetsIn(c, s, tag);
      assert Published(Run(c, s, ops).log) != Published(s.log);
    }
  }

  /** Nobody leaves the receive loop before the end is owned. */
  lemma {:induction false} ReceivingUntilOwned(c: Config, s: State, ops: seq<Op>)
    requires Sound(c, s) && (s.owner.None? ==> s.receiving)
    ensures Run(c, s, ops).owner.None? ==> Run(c, s, ops).receiving
    decreases |ops|
  {
    hide Sound, Step;
    if ops != [] {
      StepSound(c, s, ops[0]);
      StepReceives(c, s, ops[0]);
      ReceivingUntilOwned(c, Step(c, s, ops[0]), ops[1..]);
    }
  }

  lemma StepReceives(c: Config, s: State, op: Op)
    requires Sound(c, s) && (s.owner.None? ==> s.receiving)
    ensures Step(c, s, op).owner.None? ==> Step(c, s, op).receiving
  {
    hide Sound, Receive, T.Next, B.Current, Q.PutTerminal, Follows, Q.StartSend, Q.EndSend;
    OwnedAtTheEnd(c, s);
    if op.Receiving? && s.receiving {
      ReceiveFollows(c, s, op.payload);
    }
  }

  /** The terminal of a send that fails at any moment of a run, being the first to claim the end, is
      the newest mark; it stays the last event enqueued exactly when a newer session had already
      taken over as the send failed: otherwise the receive loop is still waiting for a payload. */
  lemma SendersTerminalIsLastExactly(
    c: Config, completedInputs: set<Id>, seenCalls: set<Id>, before: seq<Op>, code: ErrorCode, retryable: bool,
    tag: nat)
    requires c.limits.frames >= 1 && c.limits.size(Passed(tag)) <= c.limits.bytes
    ensures var s := Run(c, Start(completedInputs, seenCalls), before);
            var s' := Step(c, s, SenderFails(code, retryable));
            s.owner.None? ==>
              && s'.log == s.log + [Enqueued(SessionFailed(code, retryable))] && s'.published
              && ((forall ops :: Published(Run(c, s', ops).log) == Published(s'.log)) <==> !s.current)
  {
    hide Sound, Published;
    var s := Run(c, Start(completedInputs, seenCalls), before);
    StartIsSound(c, completedInputs, seenCalls);
    RunSound(c, Start(completedInputs, seenCalls), before);
    ReceivingUntilOwned(c, Start(completedInputs, seenCalls), before);
    if s.owner.None? {
      OwnedAtTheEnd(c, s);
      var s' := Step(c, s, SenderFails(code, retryable));
      StepSound(c, s, SenderFails(code, retryable));
      EndedExactly(c, s', tag);
    }
  }

  /** Such a run: the session becomes ready, the send of some audio fails, and an event of the relay
      gets in behind the terminal. */
  lemma ASendersTerminalNeedNotBeLast(c: Config, eventId: Id, size: nat, tag: nat)
    requires c.input.frames >= 1 && 0 < size <= c.input.event && size <= c.input.bytes && size % 2 == 0
    requires c.limits.frames >= 3
    requires c.limits.size(SessionReady) + c.limits.size(SessionFailed(Unavailable, true))
           + c.limits.size(Passed(tag)) <= c.limits.bytes
    ensures var updated := Decoded(eventId, [], true, true, None, None, None, None, None, None, None, None, None);
            var sending := Run(c, Start({}, {}), [Receiving(Provided(updated)), AudioStarts(size)]);
            && sending.input.sizes == [size]
            && Run(c, sending, [SenderFails(Unavailable, true), Receiving(Controlled(Expiring(tag)))]).log
               == [Enqueued(SessionReady), Enqueued(SessionFailed(Unavailable, true)), Enqueued(Passed(tag))]
  {
    var updated := Decoded(eventId, [], true, true, None, None, None, None, None, None, None, None, None);
    var s1 := Step(c, Start({}, {}), Receiving(Provided(updated)));
    var s2 := Step(c, s1, AudioStarts(size));
    var s3 := Step(c, s2, SenderFails(Unavailable, true));
    var s4 := Step(c, s3, Receiving(Controlled(Expiring(tag))));
    BecomesReady(c, updated);
    RunOfTwo(c, Start({}, {}), Receiving(Provided(updated)), AudioStarts(size));
    RunOfTwo(c, s2, SenderFails(Unavailable, true), Receiving(Controlled(Expiring(tag))));
    hide Run, Apply, Bookkeeping;
    assert s2.input.sizes == [size];
    assert s3.log == [Enqueued(SessionReady), Enqueued(SessionFailed(Unavailable, true))];
  }

  lemma BecomesReady(c: Config, d: Decoded)
    requires d.providerReady && d.acknowledged && d.rejected.None?
    requires c.limits.frames >= 1 && c.limits.size(SessionReady) <= c.limits.bytes
    ensures var s := Start({}, {});
            Step(c, s, Receiving(Provided(d))) ==
            Enqueue(s, Q.Put(c.limits, Q.EMPTY, SessionReady), SessionReady).(ready := true, seenEvents := {d.eventId})
  {
  }

  lemma RunOfTwo(c: Config, s: State, a: Op, b: Op)
    ensures Run(c, s, [a, b]) == Step(c, Step(c, s, a), b)
  {
    hide Step;
    assert [a, b][1..] == [b] && [b][1..] == [];
    assert Run(c, Step(c, Step(c, s, a), b), []) == Step(c, Step(c, s, a), b);
    assert Run(c, Step(c, s, a), [b]) == Step(c, Step(c, s, a), b);
  }

  /** What a clean close still enqueues. */
  function LastWords(s: State, reason: nat, related: Option<Id>): seq<Mark> {
    var closed := [Enqueued(SessionClosed(reason, Client, Clean, related))];
    match B.Current(s.book.order, s.book.terminal)
    case None => closed
    case Some(r) => [Enqueued(ResponseFinished(r, StatusCancelled, true))] + closed
  }

  /** In every run, once clean-close intent is claimed, and whatever arrives or fails later: either
      nothing has been enqueued since, or exactly the local end of the response under way, if there
      is one, and the clean close by the client. The end stays the client's. */
  lemma CleanCloseHolds(c: Config, completedInputs: set<Id>, seenCalls: set<Id>, before: seq<Op>, after: seq<Op>)
    ensures var s := Run(c, Start(completedInputs, seenCalls), before);
            s.phase.AwaitingAck? ==>
              var s' := Run(c, s, after);
              && s'.owner == Some((Client, Clean))
              && (!s'.published ==> s'.log == s.log)
              && (s'.published ==> exists reason: nat, related: Option<Id> ::
                   && related in {None, Some(s.phase.closeId)}
                   && s'.log == s.log + LastWords(s, reason, related))
  {
    hide Step, Sound, LastWords;
    var s := Run(c, Start(completedInputs, seenCalls), before);
    StartIsSound(c, completedInputs, seenCalls);
    RunSound(c, Start(completedInputs, seenCalls), before);
    if s.phase.AwaitingAck? {
      ClosingRun(c, s, after);
    }
  }

  lemma {:induction false} ClosingRun(c: Config, s: State, ops: seq<Op>)
    requires Sound(c, s) && s.phase.AwaitingAck?
    ensures var s' := Run(c, s, ops);
            && s'.owner == Some((Client, Clean))
            && (!s'.published ==> s'.log == s.log)
            && (s'.published ==> exists reason: nat, related: Option<Id> ::
                 && related in {None, Some(s.phase.closeId)}
                 && s'.log == s.log + LastWords(s, reason, related))
    decreases |ops|
  {
    hide Step, Follows, Q.Accounted, Q.InputAccounted, B.WellKept, T.Orderly, Logged, Disciplined, Conserved;
    RunFollows(c, s, ops);
    EndStays(s, Run(c, s, ops));
    if ops != [] {
      var s1 := Step(c, s, ops[0]);
      StepSound(c, s, ops[0]);
      ClosingStep(c, s, ops[0]);
      if s1.phase.AwaitingAck? {
        ClosingRun(c, s1, ops[1..]);
        var s' := Run(c, s, ops);
        if s'.published {
          var reason, related :|
            related in {None, Some(s1.phase.closeId)} && s'.log == s1.log + LastWords(s1, reason, related);
          assert s'.log == s.log + LastWords(s, reason, related);
        }
      } else {
        SettledForever(c, s1, ops[1..]);
        RunFollows(c, s1, ops[1..]);
        EndStays(s1, Run(c, s, ops));
      }
    }
  }

  lemma EndStays(s: State, s': State)
    requires Follows(s, s')
    ensures s.owner.Some? ==> s'.owner == s.owner
    ensures s.published ==> s'.published
  {
  }

  lemma ClosingStep(c: Config, s: State, op: Op)
    requires s.phase.AwaitingAck? && s.closing && s.owner.Some?
    ensures var s' := Step(c, s, op);
            && s'.closing
            && (s'.phase.AwaitingAck? ==> s'.log == s.log && s'.book == s.book && s'.phase.closeId == s.phase.closeId)
            && (!s'.phase.AwaitingAck? ==>
                 s'.phase.CloseDone? && s'.published && exists reason: nat, related: Option<Id> ::
                 related in {None, Some(s.phase.closeId)} && s'.log == s.log + LastWords(s, reason, related))
  {
    hide EndClose, ReceiveWhileClosing, T.Next, Q.Take, Q.StartSend, Q.EndSend, LastWords;
    match op
    case CloseEnds(reason, heard) => EndWithLastWords(c, s, reason, heard);
    case Receiving(payload) => ClosingLeavesLog(s, payload);
    case _ =>
  }

  lemma EndWithLastWords(c: Config, s: State, reason: nat, heard: bool)
    requires s.phase.AwaitingAck?
    ensures var s' := EndClose(c, s, reason, heard);
            && s'.closing == s.closing && s'.phase.CloseDone? && s'.published
            && exists reason: nat, related: Option<Id> ::
                 related in {None, Some(s.phase.closeId)} && s'.log == s.log + LastWords(s, reason, related)
  {
    hide B.Current, Q.PutTerminal;
    var related := if s.phase.acked && heard then Some(s.phase.closeId) else None;
    assert EndClose(c, s, reason, heard).log == s.log + LastWords(s, reason, related);
  }

  lemma ClosingLeavesLog(s: State, p: Payload)
    requires s.phase.AwaitingAck?
    ensures var s' := ReceiveWhileClosing(s, p);
            && s'.closing == s.closing && s'.log == s.log && s'.book == s.book
            && s'.phase.AwaitingAck? && s'.phase.closeId == s.phase.closeId
  {
  }

  // ---- what reaches the product ----

  /** The state a session can be in: any run from a start with what a former session remembered. */
  ghost predicate Reachable(c: Config, completedInputs: set<Id>, seenCalls: set<Id>, s: State) {
    exists ops :: s == Run(c, Start(completedInputs, seenCalls), ops)
  }

  lemma ReachableIsSound(c: Config, completedInputs: set<Id>, seenCalls: set<Id>, s: State)
    requires Reachable(c, completedInputs, seenCalls, s)
    ensures Sound(c, s) && Follows(Start(completedInputs, seenCalls), s)
  {
    hide Sound, Follows, Step;
    var ops :| s == Run(c, Start(completedInputs, seenCalls), ops);
    StartIsSound(c, completedInputs, seenCalls);
    RunFollows(c, Start(completedInputs, seenCalls), ops);
  }

  /** Everything enqueued is in order: output belongs to a response, item and content introduced
      before, and comes neither after the content's completion, nor after a local cancellation of
      the response, nor after its end; and a response ends at most once, after its start. */
  lemma OutputDiscipline(c: Config, completedInputs: set<Id>, seenCalls: set<Id>, s: State, j: nat)
    requires Reachable(c, completedInputs, seenCalls, s)
    requires j < |s.log| && s.log[j].Enqueued?
    ensures s.log[j].event.Output? ==>
      var k := s.log[j].event.content;
      && Introduced(k.response) in s.log[..j]
      && ItemAdded((k.response, k.item)) in s.log[..j]
      && ContentAdded(k) in s.log[..j]
      && ContentDone(k) !in s.log[..j]
      && CancelledLocally(k.response) !in s.log[..j]
      && forall i :: 0 <= i < j && s.log[i].Enqueued? && s.log[i].event.ResponseFinished? ==>
           s.log[i].event.response != k.response
    ensures s.log[j].event.ResponseFinished? ==>
      && Introduced(s.log[j].event.response) in s.log[..j]
      && forall i :: 0 <= i < j && s.log[i].Enqueued? && s.log[i].event.ResponseFinished? ==>
           s.log[i].event.response != s.log[j].event.response
  {
    hide Q.Accounted, Q.InputAccounted, B.WellKept, T.Orderly, Logged, EndsOnce, Conserved, Follows, Reachable;
    ReachableIsSound(c, completedInputs, seenCalls, s);
    assert Allowed(s.log[..j], s.log[j].event);
    forall i | 0 <= i < j && s.log[i].Enqueued? && s.log[i].event.ResponseFinished?
      ensures FinishedIn(s.log[..j], s.log[i].event.response)
    {
      assert s.log[..j][i] == s.log[i];
    }
  }

  /** Each call is dispatched at most once, and never one that a former session had seen. */
  lemma DispatchedOnce(c: Config, completedInputs: set<Id>, seenCalls: set<Id>, s: State, i: nat, j: nat)
    requires Reachable(c, completedInputs, seenCalls, s)
    requires i <= j < |s.log| && s.log[i].Dispatched? && s.log[i] == s.log[j]
    ensures i == j
    ensures s.log[i].call !in seenCalls
    ensures s.log[i].call in s.seenCalls
  {
    hide Q.Accounted, Q.InputAccounted, B.WellKept, T.Orderly, EndsOnce, Conserved, Reachable, Allowed, Grows,
         FinishedIn;
    ReachableIsSound(c, completedInputs, seenCalls, s);
    EarlierIsBefore(s.log);
  }

  lemma EarlierIsBefore(log: seq<Mark>)
    ensures forall i, j :: 0 <= i < j < |log| ==> log[i] in log[..j]
  {
    forall i, j | 0 <= i < j < |log| ensures log[i] in log[..j] {
      assert log[..j][i] == log[i];
    }
  }

  /** Contents belong to items, items to responses, and only what was introduced is completed,
      cancelled or finished; at most two responses are live, at most one of them not cancelled,
      which then is the current one. */
  lemma StructureHolds(c: Config, completedInputs: set<Id>, seenCalls: set<Id>, s: State, r: Id, r': Id)
    requires Reachable(c, completedInputs, seenCalls, s)
    ensures var b := s.book;
            && (forall k :: k in b.contents ==> (k.response, k.item) in b.items)
            && (forall i :: i in b.items ==> i.0 in b.responses)
            && b.completedContents <= b.contents && b.completedItems <= b.items
            && b.terminal <= b.responses && b.cancelled <= b.responses
            && Distinct(b.order) && Elements(b.order) == b.responses
            && |B.Live(b)| <= 2
            && (r in B.Live(b) && r !in b.cancelled && r' in B.Live(b) && r' !in b.cancelled ==> r == r')
            && (r in B.Live(b) && r !in b.cancelled ==> B.Current(b.order, b.terminal) == Some(r))
  {
    hide Sound, Follows, Reachable, B.Current;
    ReachableIsSound(c, completedInputs, seenCalls, s);
    PartsOf(c, s);
    B.LiveResponses(s.book, r, r');
  }

  /** The output counters are exact and within the limits until the terminal sequence starts; until
      then every event enqueued was taken or waits, in order; later at most one stretch was thrown
      away, as the terminal sequence started, and nothing since; in-flight audio is accounted too. */
  lemma QueueHolds(c: Config, completedInputs: set<Id>, seenCalls: set<Id>, s: State)
    requires Reachable(c, completedInputs, seenCalls, s)
    ensures var q := s.queue;
            && q.frames == |q.events| && q.bytes == Q.Size(c.limits, q.events)
            && (!q.terminalStarted ==> q.frames <= c.limits.frames && q.bytes <= c.limits.bytes)
            && (!q.terminalStarted ==> q.taken + q.events == Published(s.log))
            && (exists k, lost :: Loses(Published(s.log), q.taken + q.events, k, lost))
    ensures s.input.frames == |s.input.sizes| <= c.input.frames
    ensures s.input.bytes == Sum(s.input.sizes) <= c.input.bytes
  {
    hide B.WellKept, T.Orderly, Logged, EndsOnce, Disciplined, Follows, Reachable, Published;
    ReachableIsSound(c, completedInputs, seenCalls, s);
  }

  /** In every run, from the start of the terminal sequence on, what is taken or queued only grows
      at its end. */
  lemma NothingDiscardedLater(
    c: Config, completedInputs: set<Id>, seenCalls: set<Id>, before: seq<Op>, after: seq<Op>)
    ensures var s := Run(c, Start(completedInputs, seenCalls), before);
            var s' := Run(c, s, after);
            s.queue.terminalStarted ==>
              s'.queue.terminalStarted && s.queue.taken + s.queue.events <= s'.queue.taken + s'.queue.events
  {
    hide Step, Sound, Grows, T.Forward;
    var s := Run(c, Start(completedInputs, seenCalls), before);
    StartIsSound(c, completedInputs, seenCalls);
    RunSound(c, Start(completedInputs, seenCalls), before);
    RunFollows(c, s, after);
    PartsOf(c, s);
    PartsOf(c, Run(c, s, after));
  }

  /** A consumer that drains a finished session has been handed its terminal. */
  lemma TheTerminalArrives(c: Config, completedInputs: set<Id>, seenCalls: set<Id>, s: State)
    requires Reachable(c, completedInputs, seenCalls, s)
    requires s.published && s.queue.events == []
    ensures exists e :: e in s.queue.taken && IsTerminal(e)
  {
    hide B.WellKept, T.Orderly, Logged, Disciplined, Follows, Reachable, Conserved;
    ReachableIsSound(c, completedInputs, seenCalls, s);
    assert s.queue.admitted == s.queue.taken;
  }

  /** The tool-call protocol inside a session, whatever else happens: between any two moments of a run
      calls move only forward; all sends of a result are identical, no follow-up goes out before the
      echo of the output, and the waiting list is exact. */
  lemma ToolsHold(
    c: Config, completedInputs: set<Id>, seenCalls: set<Id>, before: seq<Op>, after: seq<Op>, i: nat, j: nat)
    ensures var s := Run(c, Start(completedInputs, seenCalls), before);
            var d := Run(c, s, after).desk;
            && T.Forward(s.desk, d)
            && Distinct(d.waiting)
            && (forall k :: k in d.waiting <==> k in d.tools && d.tools[k].phase == T.FollowupRequested)
            && (i < j < |d.log| ==>
                 var m, n := d.log[i], d.log[j];
                 && (m.ResultSend? && n.ResultSend? && m.call == n.call ==> m.payload == n.payload)
                 && (m.FollowupSend? && n.FollowupSend? && m.call == n.call ==> m.payload == n.payload)
                 && (n.FollowupSend? ==>
                      && n.call in d.tools && d.tools[n.call].output.Some?
                      && exists k :: 0 <= k < j && d.log[k] == T.AckSeen(n.call, d.tools[n.call].output.value)))
  {
    hide Step, Sound, T.Forward, Grows;
    var s := Run(c, Start(completedInputs, seenCalls), before);
    StartIsSound(c, completedInputs, seenCalls);
    RunSound(c, Start(completedInputs, seenCalls), before);
    RunFollows(c, s, after);
    PartsOf(c, Run(c, s, after));
    var d := Run(c, s, after).desk;
    assert Distinct(d.waiting);
    assert forall k :: k in d.waiting <==> k in d.tools && d.tools[k].phase == T.FollowupRequested;
    hide T.Orderly;
    if i < j < |d.log| {
      T.OrderlyMeans(d, i, j);
    }
  }

  // ---- what gets through ----

  /** Exactly what happens to an output event, in terms of what happened before: it is enqueued when
      its content was added and is still open, its response is neither finished nor cancelled, and
      it fits; when it does not fit the session ends Busy; it is dropped without a trace when it
      comes too late; for a content nobody added the session ends with a protocol error. */
  lemma OutputGetsThrough(c: Config, s: State, e: Event)
    requires Sound(c, s) && e.Output?
    ensures var k, f := e.content, OutputEvent(c, s, e);
            var known := ContentAdded(k) in s.log;
            var over := k.response in s.book.terminal || CancelledLocally(k.response) in s.log;
            && (known && !over && ContentDone(k) !in s.log && Q.Fits(c.limits, s.queue, e) ==>
                 f.Go? && f.state.log == s.log + [Enqueued(e)] && f.state.queue.events == s.queue.events + [e])
            && (known && !over && ContentDone(k) !in s.log && !Q.Fits(c.limits, s.queue, e) ==>
                 f == Stop(Fail(c, s, Busy, false)))
            && (over || ContentDone(k) in s.log ==> f == Go(s))
            && (!known && !over ==> f == Broken(c, s))
  {
    hide Q.Accounted, Q.InputAccounted, T.Orderly, Disciplined, EndsOnce, Conserved, FinishedIn, Broken;
  }

  /** A status as the product gets it: a response cut short after a cancellation is cancelled. */
  function Corrected(s: State, e: Event): Event
    requires e.ResponseFinished?
  {
    if e.status == StatusIncomplete && CancelledLocally(e.response) in s.log then e.(status := StatusCancelled) else e
  }

  /** Exactly what happens to the end of a response: the first one is enqueued, whether it fits or not
      when the session fails in the same batch; otherwise the session ends Busy when it does not
      fit; a second one is dropped, and for an unknown response the session ends with a protocol
      error. */
  lemma FinishGetsThrough(c: Config, s: State, e: Event, terminalBatch: bool)
    requires Sound(c, s) && e.ResponseFinished?
    ensures var r, f, e' := e.response, FinishedEvent(c, s, e, terminalBatch), Corrected(s, e);
            var first := Introduced(r) in s.log && r !in s.book.terminal;
            var finished := s.(book := s.book.(terminal := s.book.terminal + {r}));
            && (first && (terminalBatch || Q.Fits(c.limits, s.queue, e')) ==>
                 && f.Go? && f.state.log == s.log + [Enqueued(e')]
                 && NewestIs(f.state.queue.events, e')
                 && f.state.book == finished.book)
            && (first && !terminalBatch && !Q.Fits(c.limits, s.queue, e') ==> f == Stop(Fail(c, finished, Busy, false)))
            && (r in s.book.terminal ==> f == Go(s))
            && (Introduced(r) !in s.log ==> f == Broken(c, s))
  {
    hide Sound, Broken, Q.PutTerminal, Q.Fits, NewestIs, Fail;
    QueuedLast(c, s, Corrected(s, e));
    IntroducedInLog(c, s);
  }

  lemma IntroducedInLog(c: Config, s: State)
    requires Sound(c, s)
    ensures s.book.terminal <= s.book.responses
    ensures forall r :: r in s.book.responses <==> Introduced(r) in s.log
    ensures forall r :: r in s.book.cancelled <==> CancelledLocally(r) in s.log
  {
    hide Q.InputAccounted, T.Orderly, Disciplined, EndsOnce, Conserved, FinishedIn, Q.Accounted;
  }

  predicate NewestIs(events: seq<Event>, e: Event) {
    events != [] && events[|events| - 1] == e
  }

  lemma QueuedLast(c: Config, s: State, e: Event)
    requires Sound(c, s)
    ensures NewestIs(Q.Put(c.limits, s.queue, e).events, e)
    ensures NewestIs(Q.PutTerminal(c.limits, s.queue, e).events, e)
  {
    PartsOf(c, s);
    Q.PutTerminalAccounted(c.limits, s.queue, e);
  }

  /** A call that names its adapter identity, belongs to a function item of a response that was
      introduced and is not over, is meant for this session and is not open already. */
  predicate ProperCall(c: Config, s: State, d: Decoded, e: Event)
    requires e.ToolCallRequested?
  {
    && d.toolCall.Some? && d.toolCall.value.0 == e.toolResponse && d.toolCall.value.3 == e.call
    && Introduced(e.toolResponse) in s.log && e.toolResponse !in s.book.terminal
    && (e.toolResponse, d.toolCall.value.1, d.toolCall.value.2) in s.book.functionItems
    && e.generation in {0, c.generation}
    && e.call !in s.desk.tools
  }

  /** Exactly what happens to a tool call: an improper one ends the session with a protocol error; one
      seen before is dropped; any other is registered and remembered, handed to the dispatcher if
      there is one and its arguments are valid, and then, when they are, enqueued with this
      session's generation if it fits. If it does not fit the session ends Busy, with the call
      registered and dispatched all the same. */
  lemma CallGetsThrough(c: Config, s: State, d: Decoded, e: Event)
    requires Sound(c, s) && e.ToolCallRequested?
    ensures var f, e' := ToolCallEvent(c, s, d, e), e.(generation := c.generation);
            var marks := if c.hasDispatcher && !c.invalid(e') then [Dispatched(e.call)] else [];
            var registered :=
              s.(desk := T.Open(s.desk, e.call), seenCalls := s.seenCalls + {e.call}, log := s.log + marks);
            && (!ProperCall(c, s, d, e) ==> f == Broken(c, s))
            && (ProperCall(c, s, d, e) && e.call in s.seenCalls ==> f == Go(s))
            && (ProperCall(c, s, d, e) && e.call !in s.seenCalls ==>
                 && (c.invalid(e') ==> f == Go(registered))
                 && (!c.invalid(e') && Q.Fits(c.limits, s.queue, e') ==>
                      f.Go? && f.state.log == registered.log + [Enqueued(e')] && f.state.desk == registered.desk
                      && f.state.seenCalls == registered.seenCalls)
                 && (!c.invalid(e') && !Q.Fits(c.limits, s.queue, e') ==> f == Stop(Fail(c, registered, Busy, false))))
  {
    hide Sound, Q.Fits, Fail, Broken, T.Open;
    IntroducedInLog(c, s);
    assert s.log + [] == s.log;
  }

  /** What the product gets of an adapter's event: the event itself, but for a status corrected to
      cancelled or a generation filled in. */
  predicate Shows(shown: Event, e: Event) {
    || shown == e
    || (e.ResponseFinished? && e.status == StatusIncomplete && shown == e.(status := StatusCancelled))
    || (e.ToolCallRequested? && shown.ToolCallRequested? && shown == e.(generation := shown.generation))
  }

  predicate ShowsInOrder(shown: seq<Event>, events: seq<AdapterEvent>)
    decreases |events|
  {
    if events == [] then shown == []
    else
      || ShowsInOrder(shown, events[1..])
      || (shown != [] && Shows(shown[0], events[0]) && ShowsInOrder(shown[1..], events[1..]))
  }

  /** A batch that is handled to its end shows the product some of its events, in their order, at
      most once each, and nothing else. */
  lemma {:induction false} BatchInOrder(
    c: Config, s: State, d: Decoded, terminalBatch: bool, events: seq<AdapterEvent>) returns (shown: seq<Event>)
    requires ApplyEvents(c, s, d, terminalBatch, events).Go?
    ensures Published(ApplyEvents(c, s, d, terminalBatch, events).state.log) == Published(s.log) + shown
    ensures ShowsInOrder(shown, events)
    decreases |events|
  {
    hide ApplyEvent, Shows, Published;
    if events == [] {
      shown := [];
    } else {
      var first := OneEvent(c, s, d, terminalBatch, events[0]);
      var s1 := ApplyEvent(c, s, d, terminalBatch, events[0]).state;
      var rest := BatchInOrder(c, s1, d, terminalBatch, events[1..]);
      shown := first + rest;
      assert Published(s.log) + first + rest == Published(s.log) + shown;
      if first == [] {
        assert shown == rest;
      } else {
        assert shown[1..] == rest;
      }
    }
  }

  lemma OneEvent(c: Config, s: State, d: Decoded, terminalBatch: bool, e: AdapterEvent) returns (shown: seq<Event>)
    requires ApplyEvent(c, s, d, terminalBatch, e).Go?
    ensures Published(ApplyEvent(c, s, d, terminalBatch, e).state.log) == Published(s.log) + shown
    ensures |shown| <= 1 && (shown != [] ==> Shows(shown[0], e))
  {
    hide Published, ApplyEvent, Shows;
    var marks := MarksOfOne(c, s, d, terminalBatch, e);
    if marks == [] {
      shown := [];
      assert s.log + [] == s.log;
    } else {
      PublishedMore(s.log, marks[0]);
      if |marks| == 1 {
        assert marks == [marks[0]];
        shown := if marks[0].Enqueued? then [marks[0].event] else [];
      } else {
        PublishedMore(s.log + [marks[0]], marks[1]);
        assert s.log + marks == s.log + [marks[0]] + [marks[1]];
        shown := [marks[1].event];
      }
    }
    assert Published(s.log) + [] == Published(s.log);
  }

  /** The marks one event leaves: at most a dispatch and then the event itself. */
  lemma MarksOfOne(c: Config, s: State, d: Decoded, terminalBatch: bool, e: AdapterEvent) returns (marks: seq<Mark>)
    requires ApplyEvent(c, s, d, terminalBatch, e).Go?
    ensures ApplyEvent(c, s, d, terminalBatch, e).state.log == s.log + marks
    ensures |marks| <= 2
    ensures |marks| >= 1 && marks[0].Enqueued? ==> Shows(marks[0].event, e) && |marks| == 1
    ensures |marks| == 2 ==> marks[1].Enqueued? && Shows(marks[1].event, e)
  {
    hide Deliver, ToolCallEvent, OutputEvent, FinishedEvent, FinishTerminal;
    DeliveredLog(c, s, e);
    match e
    case ToolCallRequested(_, _, _, _) => marks := MarksOfCall(c, s, d, e);
    case ResponseFinished(_, _, _) => marks := MarksOfFinish(c, s, e, terminalBatch);
    case Output(_, _, _) => marks := MarksOfOutput(c, s, e);
    case TranscriptCompleted(turn, _, _) =>
      DeliveredLog(c, s.(completedInputs := s.completedInputs + {turn}), e);
      marks := if ApplyEvent(c, s, d, terminalBatch, e).state.log == s.log then [] else [Enqueued(e)];
    case _ => marks := [Enqueued(e)];
  }

  lemma DeliveredLog(c: Config, s: State, e: Event)
    ensures Deliver(c, s, e).Go? ==> Deliver(c, s, e).state.log == s.log + [Enqueued(e)]
  {
  }

  lemma MarksOfOutput(c: Config, s: State, e: Event) returns (marks: seq<Mark>)
    requires e.Output? && OutputEvent(c, s, e).Go?
    ensures OutputEvent(c, s, e).state.log == s.log + marks
    ensures marks == [] || marks == [Enqueued(e)]
  {
    hide Deliver, FinishTerminal;
    DeliveredLog(c, s, e);
    marks := if OutputEvent(c, s, e).state.log == s.log then [] else [Enqueued(e)];
  }

  lemma MarksOfFinish(c: Config, s: State, e: Event, terminalBatch: bool) returns (marks: seq<Mark>)
    requires e.ResponseFinished? && FinishedEvent(c, s, e, terminalBatch).Go?
    ensures FinishedEvent(c, s, e, terminalBatch).state.log == s.log + marks
    ensures marks == [] || (|marks| == 1 && marks[0].Enqueued? && Shows(marks[0].event, e))
  {
    hide Deliver, FinishTerminal, Q.PutTerminal;
    var cutShort := e.status == StatusIncomplete && e.response in s.book.cancelled;
    var e' := if cutShort then e.(status := StatusCancelled) else e;
    DeliveredLog(c, s.(book := s.book.(terminal := s.book.terminal + {e.response})), e');
    marks := if FinishedEvent(c, s, e, terminalBatch).state.log == s.log then [] else [Enqueued(e')];
  }

  lemma MarksOfCall(c: Config, s: State, d: Decoded, e: Event) returns (marks: seq<Mark>)
    requires e.ToolCallRequested? && ToolCallEvent(c, s, d, e).Go?
    ensures ToolCallEvent(c, s, d, e).state.log == s.log + marks
    ensures |marks| <= 2
    ensures |marks| >= 1 && marks[0].Enqueued? ==> Shows(marks[0].event, e) && |marks| == 1
    ensures |marks| == 2 ==> marks[1].Enqueued? && Shows(marks[1].event, e)
  {
    hide Deliver, FinishTerminal;
    var e' := e.(generation := c.generation);
    var s1 := s.(desk := T.Open(s.desk, e.call), seenCalls := s.seenCalls + {e.call});
    var s2 := s1.(log := s.log + [Dispatched(e.call)]);
    DeliveredLog(c, s1, e');
    DeliveredLog(c, s2, e');
    if e.call in s.seenCalls {
      marks := [];
    } else {
      var dispatch := if c.hasDispatcher && !c.invalid(e') then [Dispatched(e.call)] else [];
      marks := dispatch + if c.invalid(e') then [] else [Enqueued(e')];
    }
  }
}
