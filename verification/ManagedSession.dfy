/** The managed session as the object its callers hold: every method is proved to take exactly the
    step of module Session it stands for (session.py). */
module ManagedSession {
  import opened Common
  import opened SessionEvents
  import S = Session
  import Q = SessionQueue
  import B = ResponseBook
  import T = ToolCalls

  class ManagedRealtimeSession {
    const config: S.Config
    const output: Q.OutputQueue
    const input: Q.InputGauge
    const ledger: B.Ledger
    const desk: T.ToolDesk

    var terminalOwner: Option<(Initiator, Disposition)>
    var terminalPublished: bool
    var closing: bool
    var closePhase: S.ClosePhase

    var ready: bool
    var currentGeneration: bool
    var receiving: bool
    var seenEventIds: set<Id>
    var contextPending: set<Id>
    var completedInputs: set<Id>
    var seenToolCalls: set<Id>

    ghost var log: seq<S.Mark>

    ghost predicate Valid() {
      output.limits == config.limits && input.limits == config.input
    }

    /** The session as a state of module Session. */
    ghost function Model(): S.State
      reads this, output, input, ledger, desk
    {
      S.State(output.Model(), input.Model(), ledger.Model(), desk.Model(),
              terminalOwner, terminalPublished, closing, closePhase, ready, currentGeneration, receiving,
              seenEventIds, contextPending, completedInputs, seenToolCalls, log)
    }

    constructor (config: S.Config, completedInputs: set<Id>, seenToolCalls: set<Id>)
      ensures this.config == config && Valid()
      ensures fresh(output) && fresh(input) && fresh(ledger) && fresh(desk)
      ensures Model() == S.Start(completedInputs, seenToolCalls)
    {
      this.config := config;
      output := new Q.OutputQueue(config.limits);
      input := new Q.InputGauge(config.input);
      ledger := new B.Ledger();
      desk := new T.ToolDesk();
      terminalOwner, terminalPublished, closing, closePhase := None, false, false, S.NotClosing;
      ready, currentGeneration, receiving := false, true, true;
      seenEventIds, contextPending := {}, {};
      this.completedInputs, this.seenToolCalls := completedInputs, seenToolCalls;
      log := [];
    }

    // ---- emitting and ending ----

    method Emit(e: Event) returns (ok: bool)
      requires Valid()
      modifies this`log, output
      ensures ok == Q.Fits(config.limits, old(output.Model()), e)
      ensures Model() == if ok then S.Enqueue(old(Model()), Q.Put(config.limits, old(output.Model()), e), e)
                         else old(Model())
    {
      ok := output.Emit(e);
      if ok {
        log := log + [S.Enqueued(e)];
      }
    }

    method EmitTerminalSafe(e: Event)
      requires Valid()
      modifies this`log, output
      ensures Model() == S.EmitTerminal(config, old(Model()), e)
    {
      output.EmitTerminalSafe(e);
      log := log + [S.Enqueued(e)];
    }

    method ClaimTerminal(initiator: Initiator, disposition: Disposition) returns (claimed: bool)
      modifies this`terminalOwner
      ensures claimed <==> old(terminalOwner).None?
      ensures terminalOwner == if claimed then Some((initiator, disposition)) else old(terminalOwner)
    {
      if terminalOwner.Some? {
        return false;
      }
      terminalOwner := Some((initiator, disposition));
      return true;
    }

    method FinishTerminal(e: Event, initiator: Initiator, disposition: Disposition)
      requires Valid()
      modifies this, output
      ensures Model() == S.FinishTerminal(config, old(Model()), e, (initiator, disposition))
    {
      var claimed := ClaimTerminal(initiator, disposition);
      if !claimed {
        return;
      }
      EmitTerminalSafe(e);
      terminalPublished := true;
    }

    method Fail(code: ErrorCode, retryable: bool)
      requires Valid()
      modifies this, output
      ensures Model() == S.Fail(config, old(Model()), code, retryable)
    {
      FinishTerminal(SessionFailed(code, retryable), Provider, if retryable then Retryable else Fatal);
    }

    /** How a stage reports: whether to go on. */
    ghost function Outcome(goOn: bool): S.Flow
      reads this, output, input, ledger, desk
    {
      if goOn then S.Go(Model()) else S.Stop(Model())
    }

    method Break() returns (goOn: bool)
      requires Valid()
      modifies this, output
      ensures !goOn && Outcome(goOn) == S.Broken(config, old(Model()))
    {
      Fail(ProtocolError, false);
      goOn := false;
    }

    method Deliver(e: Event) returns (goOn: bool)
      requires Valid()
      modifies this, output
      ensures Outcome(goOn) == S.Deliver(config, old(Model()), e)
    {
      goOn := Emit(e);
      if !goOn {
        Fail(Busy, false);
      }
    }

    // ---- applying a decoded provider event ----

    method BecomeReady(d: S.Decoded) returns (goOn: bool)
      requires Valid()
      modifies this, output
      ensures Outcome(goOn) == S.ReadyStage(config, old(Model()), d)
    {
      goOn := true;
      if d.providerReady && !ready {
        ready := true;
        goOn := Deliver(SessionReady);
      } else if !ready && !d.acknowledged {
        goOn := Break();
      }
    }

    method AdmitResponse(d: S.Decoded) returns (goOn: bool)
      requires Valid()
      modifies this, output, ledger, desk
      ensures Outcome(goOn) == S.ResponseStage(config, old(Model()), d)
    {
      if d.response.None? {
        return true;
      }
      goOn := ledger.Begin(d.response.value);
      if !goOn {
        goOn := Break();
        return;
      }
      log := log + [S.Introduced(d.response.value)];
      desk.AnswerOldest();
    }

    method AdmitItem(d: S.Decoded) returns (goOn: bool)
      requires Valid()
      modifies this, output, ledger
      ensures Outcome(goOn) == S.ItemStage(config, old(Model()), d)
    {
      if d.item.None? {
        return true;
      }
      var item := d.item.value;
      if item.0 !in ledger.responses || item in ledger.items {
        goOn := Break();
        return;
      }
      ledger.AddItem(item);
      log := log + [S.ItemAdded(item)];
      if d.detail.None? {
        goOn := Break();
        return;
      }
      var detail := d.detail.value;
      if (detail.response, detail.item) != item {
        goOn := Break();
        return;
      }
      if detail.isFunctionCall {
        ledger.AddFunctionItem((detail.response, detail.item, detail.outputIndex));
      }
      return true;
    }

    method AdmitContent(d: S.Decoded) returns (goOn: bool)
      requires Valid()
      modifies this, output, ledger
      ensures Outcome(goOn) == S.ContentStage(config, old(Model()), d)
    {
      if d.content.None? {
        return true;
      }
      var content := d.content.value;
      if (content.response, content.item) !in ledger.items || content in ledger.contents {
        goOn := Break();
        return;
      }
      ledger.AddContent(content);
      log := log + [S.ContentAdded(content)];
      return true;
    }

    method AckTool(d: S.Decoded) returns (goOn: bool)
      requires Valid()
      modifies this, output, desk
      ensures Outcome(goOn) == S.EchoStage(config, old(Model()), d)
    {
      if d.echo.None? {
        return true;
      }
      goOn := desk.Acknowledge(d.echo.value.call, d.echo.value.output, d.echo.value.wellFormed);
      if !goOn {
        goOn := Break();
      }
    }

    method CheckCompletions(d: S.Decoded) returns (goOn: bool)
      requires Valid()
      modifies this, output
      ensures Outcome(goOn) == S.CompletionCheck(config, old(Model()), d)
    {
      if d.completedContent.Some?
         && (d.completedContent.value !in ledger.contents || d.completedContent.value in ledger.completedContents)
      {
        goOn := Break();
        return;
      }
      if d.completedItem.Some?
         && (d.completedItem.value !in ledger.items || d.completedItem.value in ledger.completedItems)
      {
        goOn := Break();
        return;
      }
      return true;
    }

    method KeepBooks(d: S.Decoded) returns (goOn: bool)
      requires Valid()
      modifies this, output, ledger, desk
      ensures Outcome(goOn) == S.Bookkeeping(config, old(Model()), d)
    {
      hide S.ResponseStage, S.ItemStage, S.ContentStage, S.EchoStage, S.CompletionCheck;
      goOn := AdmitResponse(d);
      if goOn {
        goOn := AdmitItem(d);
      }
      if goOn {
        goOn := AdmitContent(d);
      }
      if goOn {
        goOn := AckTool(d);
      }
      if goOn {
        goOn := CheckCompletions(d);
      }
    }

    method RequestTool(d: S.Decoded, e: Event) returns (goOn: bool)
      requires e.ToolCallRequested?
      requires Valid()
      modifies this, output, desk
      ensures Outcome(goOn) == S.ToolCallEvent(config, old(Model()), d, e)
    {
      if d.toolCall.None? {
        goOn := Break();
        return;
      }
      var (r, item, index, call) := d.toolCall.value;
      if r != e.toolResponse || call != e.call || r !in ledger.responses || r in ledger.terminalResponses
         || (r, item, index) !in ledger.functionCallItems || (e.generation != 0 && e.generation != config.generation)
      {
        goOn := Break();
        return;
      }
      if e.call in desk.tools {
        goOn := Break();
        return;
      }
      if e.call in seenToolCalls {
        return true;
      }
      desk.Register(e.call);
      seenToolCalls := seenToolCalls + {e.call};
      var bound := e.(generation := config.generation);
      var invalid := config.invalid(bound);
      if config.hasDispatcher && !invalid {
        log := log + [S.Dispatched(e.call)];
      }
      if invalid {
        return true;
      }
      goOn := Deliver(bound);
    }

    method PassOutput(e: Event) returns (goOn: bool)
      requires e.Output?
      requires Valid()
      modifies this, output
      ensures Outcome(goOn) == S.OutputEvent(config, old(Model()), e)
    {
      var r := e.content.response;
      if r in ledger.terminalResponses || r in ledger.cancelledResponses {
        return true;
      }
      if r !in ledger.responses || e.content !in ledger.contents {
        goOn := Break();
        return;
      }
      if e.content in ledger.completedContents {
        return true;
      }
      goOn := Deliver(e);
    }

    method FinishResponse(e: Event, terminalBatch: bool) returns (goOn: bool)
      requires e.ResponseFinished?
      requires Valid()
      modifies this, output, ledger
      ensures Outcome(goOn) == S.FinishedEvent(config, old(Model()), e, terminalBatch)
    {
      var finished := e;
      if e.status == StatusIncomplete && e.response in ledger.cancelledResponses {
        finished := e.(status := StatusCancelled);
      }
      if e.response !in ledger.responses {
        goOn := Break();
        return;
      }
      if e.response in ledger.terminalResponses {
        return true;
      }
      ledger.Finish(e.response);
      if terminalBatch {
        EmitTerminalSafe(finished);
        return true;
      }
      goOn := Deliver(finished);
    }

    method ApplyEvent(d: S.Decoded, terminalBatch: bool, e: S.AdapterEvent) returns (goOn: bool)
      requires Valid()
      modifies this, output, ledger, desk
      ensures Outcome(goOn) == S.ApplyEvent(config, old(Model()), d, terminalBatch, e)
    {
      hide S.ToolCallEvent, S.OutputEvent, S.FinishedEvent, S.Deliver, S.FinishTerminal;
      if e.TranscriptCompleted? {
        if e.tracked {
          if e.turn in completedInputs {
            return true;
          }
          completedInputs := completedInputs + {e.turn};
        }
        goOn := Deliver(e);
      } else if e.ToolCallRequested? {
        goOn := RequestTool(d, e);
      } else if e.Output? {
        goOn := PassOutput(e);
      } else if e.ResponseFinished? {
        goOn := FinishResponse(e, terminalBatch);
      } else if e.SessionFailed? {
        FinishTerminal(e, Provider, if e.retryable then Retryable else Fatal);
        goOn := false;
      } else {
        goOn := Deliver(e);
      }
    }

    method ApplyEvents(d: S.Decoded, terminalBatch: bool) returns (goOn: bool)
      requires Valid()
      modifies this, output, ledger, desk
      ensures Outcome(goOn) == S.ApplyEvents(config, old(Model()), d, terminalBatch, d.events)
    {
      hide S.ApplyEvent;
      goOn := true;
      var i := 0;
      ghost var all := S.ApplyEvents(config, Model(), d, terminalBatch, d.events);
      assert d.events[0..] == d.events;
      while i < |d.events|
        invariant 0 <= i <= |d.events|
        invariant all == S.ApplyEvents(config, Model(), d, terminalBatch, d.events[i..])
      {
        assert d.events[i..][1..] == d.events[i + 1..];
        goOn := ApplyEvent(d, terminalBatch, d.events[i]);
        if !goOn {
          return;
        }
        i := i + 1;
      }
    }

    /** Whether the batch ends the session, so that its response ends must get through. */
    method EndsSession(d: S.Decoded) returns (terminalBatch: bool)
      ensures terminalBatch == S.TerminalBatch(d)
    {
      for i := 0 to |d.events|
        invariant forall j :: 0 <= j < i ==> !d.events[j].SessionFailed?
      {
        if d.events[i].SessionFailed? {
          return true;
        }
      }
      return false;
    }

    method RecordCompletions(d: S.Decoded)
      modifies this`log, ledger
      ensures Model() == S.Complete(old(Model()), d)
    {
      if d.completedContent.Some? {
        ledger.CompleteContent(d.completedContent.value);
        log := log + [S.ContentDone(d.completedContent.value)];
      }
      if d.completedItem.Some? {
        ledger.CompleteItem(d.completedItem.value);
      }
    }

    /** `_apply`. */
    method Apply(d: S.Decoded) returns (ok: bool)
      requires Valid()
      modifies this, output, ledger, desk
      ensures S.Apply(config, old(Model()), d) == if ok then S.Done(Model()) else S.Stop(Model())
    {
      hide S.ReadyStage, S.Bookkeeping, S.ApplyEvents, S.Complete, S.TerminalBatch;
      if !currentGeneration {
        return true;
      }
      if d.rejected.Some? && d.rejected.value in contextPending {
        return true;
      }
      var terminalBatch := EndsSession(d);
      var goOn := BecomeReady(d);
      if !goOn {
        return false;
      }
      if d.acknowledged {
        return true;
      }
      goOn := KeepBooks(d);
      if !goOn {
        return false;
      }
      goOn := ApplyEvents(d, terminalBatch);
      if !goOn {
        return false;
      }
      RecordCompletions(d);
      return true;
    }

    // ---- the receive loop ----

    /** One turn of `_receive_loop`, after its read. */
    method Receive(p: S.Payload)
      requires Valid() && receiving
      modifies this, output, ledger, desk
      ensures Model() == S.Receive(config, old(Model()), p)
    {
      hide S.ReceiveWhileClosing, S.ReceiveControl, S.ReceiveProvided, S.Fail;
      if closing {
        ReceiveWhileClosing(p);
        return;
      }
      if p.TransportError? {
        FailAndLeave(p.code, p.retryable);
      } else if p.Eof? {
        FailAndLeave(Unavailable, true);
      } else if !currentGeneration {
        receiving := !terminalPublished;
      } else if p.BadControl? || p.BadProvider? {
        FailAndLeave(p.code, p.retryable);
      } else if p.Controlled? {
        ReceiveControl(p.control);
      } else {
        ReceiveProvided(p.decoded);
      }
    }

    method FailAndLeave(code: ErrorCode, retryable: bool)
      requires Valid()
      modifies this, output
      ensures Model() == S.Returned(S.Fail(config, old(Model()), code, retryable))
    {
      hide S.Fail;
      Fail(code, retryable);
      receiving := false;
    }

    method ReceiveWhileClosing(p: S.Payload)
      modifies this
      ensures Model() == S.ReceiveWhileClosing(old(Model()), p)
    {
      if p.Eof? {
        receiving := false;
        return;
      }
      if p.Controlled? && p.control.WasClosed? && closePhase.AwaitingAck? {
        var acknowledges := p.control.related == Some(closePhase.closeId)
          && p.control.initiator == Client && p.control.disposition == Clean;
        if acknowledges {
          closePhase := S.AwaitingAck(closePhase.closeId, true);
        }
      }
      receiving := !terminalPublished;
    }

    method ReceiveControl(control: S.Control)
      requires Valid()
      modifies this, output
      ensures Model() == S.ReceiveControl(config, old(Model()), control)
    {
      hide S.FinishTerminal, S.Deliver;
      match control
      case Errored(code, retryable) =>
        FinishTerminal(SessionFailed(code, retryable), Relay, if retryable then Retryable else Fatal);
        receiving := false;
      case WasClosed(reason, initiator, disposition, related) =>
        FinishTerminal(SessionClosed(reason, initiator, disposition, related), initiator, disposition);
        receiving := false;
      case Expiring(tag) =>
        var goOn := Deliver(Passed(tag));
        receiving := goOn && !terminalPublished;
    }

    method ReceiveProvided(d: S.Decoded)
      requires Valid()
      modifies this, output, ledger, desk
      ensures Model() == S.ReceiveProvided(config, old(Model()), d)
    {
      hide S.Apply;
      if d.eventId in seenEventIds {
        receiving := !terminalPublished;
        return;
      }
      seenEventIds := seenEventIds + {d.eventId};
      assert Model() == old(Model()).(seenEvents := old(seenEventIds) + {d.eventId});
      var ok := Apply(d);
      receiving := ok && !terminalPublished;
    }

    // ---- callers ----

    method RequireActive() returns (active: bool)
      ensures active <==> S.Active(Model())
    {
      active := terminalOwner.None? && !closing && currentGeneration;
    }

    /** `cancel_response` up to its send. */
    method CancelResponse() returns (outcome: Result<Option<Id>, ErrorCode>)
      modifies this`log, ledger
      ensures Model() == S.CancelResponse(old(Model()))
      ensures outcome ==
        if S.Active(old(Model()))
        then Ok(B.Current(old(ledger.responseOrder), old(ledger.terminalResponses)))
        else Err(Cancelled)
    {
      var active := RequireActive();
      if !active {
        return Err(Cancelled);
      }
      var r := ledger.CancelCurrent();
      if r.Some? {
        log := log + [S.CancelledLocally(r.value)];
      }
      return Ok(r);
    }

    method ClaimCleanCloseIntent() returns (claimed: bool)
      modifies this`closing, this`terminalOwner
      ensures claimed <==> old(terminalOwner).None?
      ensures if claimed then closing && terminalOwner == Some((Client, Clean))
              else closing == old(closing) && terminalOwner == old(terminalOwner)
    {
      if terminalOwner.Some? {
        return false;
      }
      closing := true;
      terminalOwner := Some((Client, Clean));
      return true;
    }

    /** `close`, up to the wait for the acknowledgement of a controlled close. */
    method BeginClose(closeId: Id)
      modifies this
      ensures Model() == S.BeginClose(old(Model()), closeId)
    {
      if !closePhase.NotClosing? {
        return;
      }
      var claimed := ClaimCleanCloseIntent();
      closePhase := if claimed then S.AwaitingAck(closeId, false) else S.CloseDone;
    }

    /** The rest of `_controlled_close`. */
    method EndClose(reason: nat, heard: bool)
      requires Valid() && closePhase.AwaitingAck?
      modifies this, output, ledger
      ensures Model() == S.EndClose(config, old(Model()), reason, heard)
    {
      hide S.EmitTerminal;
      var r := ledger.CurrentResponse();
      if r.Some? {
        EmitTerminalSafe(ResponseFinished(r.value, StatusCancelled, true));
        ledger.Finish(r.value);
      }
      var related := if closePhase.acked && heard then Some(closePhase.closeId) else None;
      EmitTerminalSafe(SessionClosed(reason, Client, Clean, related));
      terminalPublished := true;
      closePhase := S.CloseDone;
    }

    /** One event for the product. */
    method NextEvent() returns (e: Event)
      requires Valid() && output.events != []
      modifies output
      ensures e == old(output.events[0])
      ensures Model() == S.Step(config, old(Model()), S.Consuming)
    {
      e := output.Get();
    }

    /** `send_audio` up to its send. */
    method SendAudio(size: nat) returns (outcome: Result<(), ErrorCode>)
      requires Valid()
      modifies input
      ensures Model() == S.Step(config, old(Model()), S.AudioStarts(size))
      ensures outcome.Ok? <==>
        S.Active(old(Model())) && ready && Q.StartSend(config.input, old(input.Model()), size).Ok?
    {
      var active := RequireActive();
      if !active {
        return Err(Cancelled);
      }
      if !ready {
        return Err(Busy);
      }
      outcome := input.Start(size);
    }

    /** `submit_tool_result` up to its wait for the attempt. */
    method SubmitToolResult(call: Id, result: string) returns (outcome: Result<(), ErrorCode>)
      modifies desk
      ensures Model() == S.Step(config, old(Model()), S.Submitting(call, result))
      ensures outcome.Ok? <==> S.Active(old(Model())) && T.Submit(old(desk.Model()), call, result).Ok?
    {
      var active := RequireActive();
      if !active {
        return Err(Cancelled);
      }
      outcome := desk.SubmitResult(call, result);
    }

    /** The first turn of the attempt's task. */
    method BeginAttempt(call: Id, payload: string)
      modifies desk
      ensures Model() == S.Step(config, old(Model()), S.Beginning(call, payload))
    {
      hide T.Try;
      desk.BeginAttempt(call, payload);
    }
  }
}
